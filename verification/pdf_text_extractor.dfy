/** `PdfTextExtractor`: the checks an uploaded file must pass before its text
    reaches the chat, in the order they are made, and the clamping of the
    extracted text. PDFBox itself is a parameter. */
module PdfTextExtractor {
  import opened Wrappers
  import opened JavaStrings
  import opened Domain

  /** What PDFBox makes of a loaded document. */
  datatype PdfDocument = PdfDocument(encrypted: bool, pages: int, text: Option<string>)

  /** `PDDocument.load` followed by `PDFTextStripper.getText`: the document,
      or `None` when either throws an `IOException`. */
  type PdfReader = seq<bv8> -> Option<PdfDocument>

  /** A `MultipartFile`. `bytes` is `None` when `getBytes` throws;
      `parseSeconds` is how long parsing this file takes, which decides the
      parse timeout. */
  datatype Upload = Upload(size: int, contentType: Option<string>, bytes: Option<seq<bv8>>, parseSeconds: nat)

  /** The `aura.chat.pdf` properties the extractor reads. */
  datatype PdfLimits = PdfLimits(maxFileSizeMb: int, maxPages: int, parseTimeoutSeconds: int, maxExtractedChars: int)

  /** The default `aura.chat.pdf` properties. */
  const DefaultLimits: PdfLimits := PdfLimits(25, 200, 10, 200000)

  /** Java `long` arithmetic: the value modulo 2^64, read as a signed number. */
  function AsLong(x: int): (r: int)
    ensures -0x8000_0000_0000_0000 <= r < 0x8000_0000_0000_0000
    ensures -0x8000_0000_0000_0000 <= x < 0x8000_0000_0000_0000 ==> r == x
  {
    (x + 0x8000_0000_0000_0000) % 0x1_0000_0000_0000_0000 - 0x8000_0000_0000_0000
  }

  /** `maxFileSizeMb * 1024L * 1024L`, which wraps around like any `long`
      product. */
  function MaxBytes(maxFileSizeMb: int): int {
    AsLong(AsLong(maxFileSizeMb * 1024) * 1024)
  }

  /** `new String(bytes, StandardCharsets.US_ASCII)`: a byte below 0x80 is
      its character, any other byte the replacement character U+FFFD. */
  function DecodeUsAscii(bytes: seq<bv8>): (r: string)
    ensures |r| == |bytes|
    ensures forall i :: 0 <= i < |bytes| ==> (r[i] < '\U{80}' <==> bytes[i] < 0x80)
    ensures forall i :: 0 <= i < |bytes| && bytes[i] < 0x80 ==> r[i] as int == bytes[i] as int
  {
    if |bytes| == 0 then ""
    else [if bytes[0] < 0x80 then bytes[0] as int as char else '\U{FFFD}'] + DecodeUsAscii(bytes[1..])
  }

  /** `hasPdfHeader`: at least four bytes, the first four being `%PDF`. As
      the source states it, the first four bytes decoded as US-ASCII start
      with "%PDF". */
  function HasPdfHeader(data: Option<seq<bv8>>): (r: bool)
    ensures r <==> data.Some? && |data.value| >= 4 && StartsWith(DecodeUsAscii(data.value[..4]), "%PDF")
  {
    data.Some? && |data.value| >= 4 && data.value[..4] == [0x25, 0x50, 0x44, 0x46]
  }

  /** `contentType.toLowerCase(Locale.ROOT).contains("pdf")` for a non-null
      content type: "pdf" occurs in it in any mix of cases. */
  function NamesPdf(contentType: string): (r: bool)
    ensures r <==> exists k :: 0 <= k && k + 3 <= |contentType| && PdfAt(contentType, k)
  {
    NamesPdfAt(contentType);
    Contains(AsciiLowerString(contentType), "pdf")
  }

  lemma {:induction false} NamesPdfAt(contentType: string)
    ensures Contains(AsciiLowerString(contentType), "pdf") <==> exists k :: 0 <= k && k + 3 <= |contentType| && PdfAt(contentType, k)
  {
    var lower := AsciiLowerString(contentType);
    if Contains(lower, "pdf") {
      var k := ContainsWitness(lower, "pdf");
      assert lower[k..k + 3][0] == 'p' && lower[k..k + 3][1] == 'd' && lower[k..k + 3][2] == 'f';
      assert PdfAt(contentType, k);
    }
    forall k | 0 <= k && k + 3 <= |contentType| && PdfAt(contentType, k)
      ensures Contains(lower, "pdf")
    {
      assert lower[k..k + 3] == "pdf";
      ContainsAt(lower, "pdf", k);
    }
  }

  /** The letters p, d, f in either case start at offset `k`. */
  predicate PdfAt(s: string, k: nat)
    requires k + 3 <= |s|
  {
    AsciiLower(s[k]) == 'p' && AsciiLower(s[k + 1]) == 'd' && AsciiLower(s[k + 2]) == 'f'
  }

  /** `clampText`: null becomes empty, and a text longer than a positive
      `maxChars` is cut to its first `maxChars` characters. */
  function ClampText(text: Option<string>, maxChars: int): (r: string)
    ensures text.None? ==> r == ""
    ensures text.Some? ==> r <= text.value
    ensures text.Some? && (maxChars <= 0 || |text.value| <= maxChars) ==> r == text.value
    ensures maxChars > 0 ==> |r| <= maxChars
    ensures text.Some? && maxChars > 0 && |text.value| > maxChars ==> |r| == maxChars
  {
    if text.None? then ""
    else if maxChars > 0 && |text.value| > maxChars then text.value[..maxChars]
    else text.value
  }

  /** `parsePdf`: an unreadable document fails to parse; an encrypted one is
      refused before its pages are counted; then the page limit applies when
      it is positive. */
  function ParsePdf(data: seq<bv8>, limits: PdfLimits, pdfBox: PdfReader): (r: Result<Option<string>, ErrorCode>)
    ensures r.Err? ==> r.error in {PdfParseFailed, PdfEncrypted, PdfTooManyPages}
    ensures r.Ok? <==> pdfBox(data).Some? && !pdfBox(data).value.encrypted
                       && (limits.maxPages <= 0 || pdfBox(data).value.pages <= limits.maxPages)
    ensures r.Ok? ==> r.value == pdfBox(data).value.text
  {
    match pdfBox(data)
    case None => Err(PdfParseFailed)
    case Some(document) =>
      if document.encrypted then Err(PdfEncrypted)
      else if limits.maxPages > 0 && document.pages > limits.maxPages then Err(PdfTooManyPages)
      else Ok(document.text)
  }

  /** `extractText`: the guards in order, then parsing (on the executor with
      a timeout when the timeout is positive), then clamping. */
  function ExtractText(file: Option<Upload>, limits: PdfLimits, pdfBox: PdfReader): (r: Result<string, ErrorCode>)
    ensures r.Err? ==> r.error in {InvalidFileType, FileTooLarge, PdfParseFailed, PdfEncrypted, PdfTooManyPages}
    ensures r.Ok? ==> file.Some? && file.value.size != 0 && file.value.contentType.Some?
                      && NamesPdf(file.value.contentType.value) && HasPdfHeader(file.value.bytes)
    ensures r.Ok? && limits.maxExtractedChars > 0 ==> |r.value| <= limits.maxExtractedChars
  {
    if file.None? || file.value.size == 0 then Err(InvalidFileType)
    else
      var maxBytes := MaxBytes(limits.maxFileSizeMb);
      if maxBytes > 0 && file.value.size > maxBytes then Err(FileTooLarge)
      else if file.value.contentType.None? || !NamesPdf(file.value.contentType.value) then Err(InvalidFileType)
      else if file.value.bytes.None? then Err(PdfParseFailed)
      else if !HasPdfHeader(file.value.bytes) then Err(InvalidFileType)
      else if limits.parseTimeoutSeconds > 0 && file.value.parseSeconds > limits.parseTimeoutSeconds then Err(PdfParseFailed)
      else
        match ParsePdf(file.value.bytes.value, limits, pdfBox)
        case Err(code) => Err(code)
        case Ok(text) => Ok(ClampText(text, limits.maxExtractedChars))
  }

  /** A file passes every guard, and its text is returned, exactly when it
      is non-empty, within a positive size limit, declared as a PDF, readable,
      headed by `%PDF`, parsed in time, unencrypted and within a positive page
      limit; the text is then the stripped text, clamped. */
  lemma {:induction false} ExtractTextSucceeds(file: Option<Upload>, limits: PdfLimits, pdfBox: PdfReader)
    ensures ExtractText(file, limits, pdfBox).Ok? <==>
      && file.Some? && file.value.size != 0
      && !(MaxBytes(limits.maxFileSizeMb) > 0 && file.value.size > MaxBytes(limits.maxFileSizeMb))
      && file.value.contentType.Some? && NamesPdf(file.value.contentType.value)
      && HasPdfHeader(file.value.bytes)
      && !(limits.parseTimeoutSeconds > 0 && file.value.parseSeconds > limits.parseTimeoutSeconds)
      && pdfBox(file.value.bytes.value).Some?
      && !pdfBox(file.value.bytes.value).value.encrypted
      && !(limits.maxPages > 0 && pdfBox(file.value.bytes.value).value.pages > limits.maxPages)
    ensures ExtractText(file, limits, pdfBox).Ok? ==>
      ExtractText(file, limits, pdfBox).value
        == ClampText(pdfBox(file.value.bytes.value).value.text, limits.maxExtractedChars)
  {
  }

  /** A missing or empty file is refused as the wrong type before anything
      else is looked at. */
  lemma {:induction false} EmptyFileFirst(file: Option<Upload>, limits: PdfLimits, pdfBox: PdfReader)
    requires file.None? || file.value.size == 0
    ensures ExtractText(file, limits, pdfBox) == Err(InvalidFileType)
  {
  }

  /** An oversized file is refused for its size whatever its content type
      and content. */
  lemma {:induction false} SizeBeforeType(file: Upload, limits: PdfLimits, pdfBox: PdfReader)
    requires file.size != 0
    requires MaxBytes(limits.maxFileSizeMb) > 0 && file.size > MaxBytes(limits.maxFileSizeMb)
    ensures ExtractText(Some(file), limits, pdfBox) == Err(FileTooLarge)
  {
  }

  /** An encrypted document is refused as encrypted, whatever its page
      count. */
  lemma {:induction false} EncryptedBeforePages(data: seq<bv8>, limits: PdfLimits, pdfBox: PdfReader)
    requires pdfBox(data).Some? && pdfBox(data).value.encrypted
    ensures ParsePdf(data, limits, pdfBox) == Err(PdfEncrypted)
  {
  }

  /** A non-empty file within the size limit whose content type is missing
      or does not name PDF is refused as the wrong type. */
  lemma {:induction false} TypeChecked(file: Upload, limits: PdfLimits, pdfBox: PdfReader)
    requires file.size != 0
    requires !(MaxBytes(limits.maxFileSizeMb) > 0 && file.size > MaxBytes(limits.maxFileSizeMb))
    requires file.contentType.None? || !NamesPdf(file.contentType.value)
    ensures ExtractText(Some(file), limits, pdfBox) == Err(InvalidFileType)
  {
  }

  /** A file that passes the size and type checks but whose bytes cannot be
      read fails to parse. */
  lemma {:induction false} UnreadableBytesFail(file: Upload, limits: PdfLimits, pdfBox: PdfReader)
    requires file.size != 0
    requires !(MaxBytes(limits.maxFileSizeMb) > 0 && file.size > MaxBytes(limits.maxFileSizeMb))
    requires file.contentType.Some? && NamesPdf(file.contentType.value)
    requires file.bytes.None?
    ensures ExtractText(Some(file), limits, pdfBox) == Err(PdfParseFailed)
  {
  }

  /** Readable bytes without a `%PDF` header, or fewer than four of them,
      are refused as the wrong type, before PDFBox sees them. */
  lemma {:induction false} HeaderChecked(file: Upload, limits: PdfLimits, pdfBox: PdfReader)
    requires file.size != 0
    requires !(MaxBytes(limits.maxFileSizeMb) > 0 && file.size > MaxBytes(limits.maxFileSizeMb))
    requires file.contentType.Some? && NamesPdf(file.contentType.value)
    requires file.bytes.Some? && !HasPdfHeader(file.bytes)
    ensures ExtractText(Some(file), limits, pdfBox) == Err(InvalidFileType)
  {
  }

  /** A file that passes every check before parsing but takes longer than a
      positive timeout fails to parse. */
  lemma {:induction false} TimeoutFails(file: Upload, limits: PdfLimits, pdfBox: PdfReader)
    requires file.size != 0
    requires !(MaxBytes(limits.maxFileSizeMb) > 0 && file.size > MaxBytes(limits.maxFileSizeMb))
    requires file.contentType.Some? && NamesPdf(file.contentType.value)
    requires HasPdfHeader(file.bytes)
    requires limits.parseTimeoutSeconds > 0 && file.parseSeconds > limits.parseTimeoutSeconds
    ensures ExtractText(Some(file), limits, pdfBox) == Err(PdfParseFailed)
  {
  }

  /** Once parsing starts, its error is the extractor's error. */
  lemma {:induction false} ParseErrorPropagates(file: Upload, limits: PdfLimits, pdfBox: PdfReader)
    requires file.size != 0
    requires !(MaxBytes(limits.maxFileSizeMb) > 0 && file.size > MaxBytes(limits.maxFileSizeMb))
    requires file.contentType.Some? && NamesPdf(file.contentType.value)
    requires HasPdfHeader(file.bytes)
    requires !(limits.parseTimeoutSeconds > 0 && file.parseSeconds > limits.parseTimeoutSeconds)
    requires ParsePdf(file.bytes.value, limits, pdfBox).Err?
    ensures ExtractText(Some(file), limits, pdfBox) == Err(ParsePdf(file.bytes.value, limits, pdfBox).error)
  {
  }

  /** A document PDFBox cannot read fails to parse. */
  lemma {:induction false} UnreadableDocumentFails(data: seq<bv8>, limits: PdfLimits, pdfBox: PdfReader)
    requires pdfBox(data).None?
    ensures ParsePdf(data, limits, pdfBox) == Err(PdfParseFailed)
  {
  }

  /** An unencrypted document with more pages than a positive limit is
      refused for its pages. */
  lemma {:induction false} PagesChecked(data: seq<bv8>, limits: PdfLimits, pdfBox: PdfReader)
    requires pdfBox(data).Some? && !pdfBox(data).value.encrypted
    requires limits.maxPages > 0 && pdfBox(data).value.pages > limits.maxPages
    ensures ParsePdf(data, limits, pdfBox) == Err(PdfTooManyPages)
  {
  }

  /** Only a `%PDF` header passes, and nothing shorter than four bytes. */
  lemma {:induction false} PdfHeaderExamples()
    ensures HasPdfHeader(Some([0x25, 0x50, 0x44, 0x46, 0x2D, 0x31]))
    ensures !HasPdfHeader(Some([0x25, 0x50, 0x44]))
    ensures !HasPdfHeader(Some([0x50, 0x4B, 0x03, 0x04]))
    ensures !HasPdfHeader(None)
  {
    var data: seq<bv8> := [0x25, 0x50, 0x44, 0x46, 0x2D, 0x31];
    assert data[..4] == [0x25, 0x50, 0x44, 0x46];
    var zip: seq<bv8> := [0x50, 0x4B, 0x03, 0x04];
    var magic: seq<bv8> := [0x25, 0x50, 0x44, 0x46];
    assert zip[..4][0] != magic[0];
  }

  /** Content types naming PDF in any case pass; others do not. */
  lemma {:induction false} NamesPdfExamples()
    ensures NamesPdf("application/pdf")
    ensures NamesPdf("APPLICATION/X-PDF")
    ensures !NamesPdf("image/png")
  {
    assert PdfAt("application/pdf", 12);
    assert PdfAt("APPLICATION/X-PDF", 14);
    forall k | 0 <= k && k + 3 <= |"image/png"|
      ensures !PdfAt("image/png", k)
    {
      assert "image/png"[k] != 'p' || "image/png"[k + 1] != 'd';
    }
  }

  /** With the default limits, files up to 25 MiB are within the size limit. */
  lemma {:induction false} DefaultSizeLimit()
    ensures MaxBytes(DefaultLimits.maxFileSizeMb) == 26214400
  {
  }

  /** A size limit so large that the byte count overflows wraps to a
      negative number, which switches the size check off. */
  lemma {:induction false} HugeSizeLimitWraps()
    ensures MaxBytes(0x800_0000_0000) == -0x8000_0000_0000_0000
  {
  }
}
