/** The file-name predicates: `FileProcessor.IsValidFileType`
    (BillingExtractor.Infrastructure/Services/FileProcessor.cs) and the MIME
    mapping `GetMimeType` of the LLM services
    (BillingExtractor.Infrastructure/LLM/OpenAIService.cs). Both look only at
    the lower-cased last extension of the name. */
module FileTypes {
  import opened Text

  /** The extensions `IsValidFileType` accepts. */
  const ValidExtensions: seq<string> := [".pdf", ".jpg", ".jpeg", ".png", ".tiff", ".bmp"]

  const OctetStream := "application/octet-stream"

  /** `IsValidFileType`: a blank name is refused; otherwise the lower-cased
      extension must be one of the six. */
  function IsValidFileType(fileName: string): (r: bool)
    ensures r ==> !IsBlank(fileName) && |Extension(fileName)| >= 2
  {
    if IsBlank(fileName) then false
    else ToLower(Extension(fileName)) in ValidExtensions
  }

  /** `GetMimeType`: the switch on the lower-cased extension. */
  function GetMimeType(fileName: string): (r: string)
    ensures r == OctetStream || Extension(fileName) != []
  {
    MimeOf(ToLower(Extension(fileName)))
  }

  function MimeOf(extension: string): string {
    if extension == ".pdf" then "application/pdf"
    else if extension == ".jpg" || extension == ".jpeg" then "image/jpeg"
    else if extension == ".png" then "image/png"
    else OctetStream
  }

  lemma LowerCharFacts(c: char)
    ensures IsWhiteSpace(LowerChar(c)) <==> IsWhiteSpace(c)
    ensures LowerChar(LowerChar(c)) == LowerChar(c)
    ensures LowerChar(c) == '.' <==> c == '.'
  {
  }

  lemma LowerIdempotent(s: string)
    ensures ToLower(ToLower(s)) == ToLower(s)
  {
    forall i | 0 <= i < |s|
      ensures ToLower(ToLower(s))[i] == ToLower(s)[i]
    {
      LowerCharFacts(s[i]);
    }
  }

  lemma LowerKeepsBlank(s: string)
    ensures IsBlank(ToLower(s)) <==> IsBlank(s)
  {
    forall i | 0 <= i < |s|
      ensures IsWhiteSpace(ToLower(s)[i]) <==> IsWhiteSpace(s[i])
    {
      LowerCharFacts(s[i]);
    }
  }

  /** A name holding '.' is never blank. */
  lemma DotNotBlank(s: string, k: nat)
    requires k < |s| && s[k] == '.'
    ensures !IsBlank(s)
  {
  }

  /** Only the case-folded last extension counts: "<anything>.<t>" is
      accepted exactly when "." + t, lower-cased, is one of the six. */
  lemma AcceptsExactlyListed(p: string, t: string)
    requires t != []
    requires forall i :: 0 <= i < |t| ==> t[i] != '.' && t[i] != '/'
    ensures IsValidFileType(p + "." + t) <==> "." + ToLower(t) in ValidExtensions
  {
    var s := p + "." + t;
    DotNotBlank(s, |p|);
    ExtensionOfSuffix(p, t);
    assert ToLower("." + t) == "." + ToLower(t);
  }

  /** Upper- or lower-case, a name has the same extension. */
  lemma LowerExtension(fileName: string)
    ensures ToLower(Extension(ToLower(fileName))) == ToLower(Extension(fileName))
  {
    ExtensionLower(fileName);
    LowerIdempotent(Extension(fileName));
  }

  /** Upper- or lower-case, a name is judged the same. */
  lemma CaseInsensitive(fileName: string)
    ensures IsValidFileType(ToLower(fileName)) == IsValidFileType(fileName)
  {
    LowerKeepsBlank(fileName);
    LowerExtension(fileName);
  }

  /** Upper- or lower-case, a name is sent with the same MIME type. */
  lemma MimeCaseInsensitive(fileName: string)
    ensures GetMimeType(ToLower(fileName)) == GetMimeType(fileName)
  {
    LowerExtension(fileName);
  }

  /** The MIME table for "<anything>.<t>": PDF, JPEG for both spellings,
      PNG, and an octet stream for every other extension. */
  lemma MimeTable(p: string, t: string)
    requires t != []
    requires forall i :: 0 <= i < |t| ==> t[i] != '.' && t[i] != '/'
    ensures GetMimeType(p + "." + t) == "application/pdf" <==> "." + ToLower(t) == ".pdf"
    ensures GetMimeType(p + "." + t) == "image/jpeg" <==> "." + ToLower(t) in [".jpg", ".jpeg"]
    ensures GetMimeType(p + "." + t) == "image/png" <==> "." + ToLower(t) == ".png"
    ensures GetMimeType(p + "." + t) == OctetStream <==> "." + ToLower(t) !in [".pdf", ".jpg", ".jpeg", ".png"]
  {
    ExtensionOfSuffix(p, t);
    assert ToLower("." + t) == "." + ToLower(t);
  }

  /** Every name with a specific MIME type is a valid file type; the
      converse fails for .tiff and .bmp, which are sent as octet streams. */
  lemma SpecificMimeIsValidType(fileName: string)
    ensures GetMimeType(fileName) != OctetStream ==> IsValidFileType(fileName)
  {
    var e := Extension(fileName);
    if GetMimeType(fileName) != OctetStream {
      assert EndsWith(fileName, e);
      assert fileName[|fileName| - |e|] == e[0];
      DotNotBlank(fileName, |fileName| - |e|);
    }
  }

  /** "A.PDF" is accepted. */
  lemma UpperCasePdfAccepted()
    ensures IsValidFileType("A.PDF")
  {
    AcceptsExactlyListed("A", "PDF");
    assert "A" + "." + "PDF" == "A.PDF";
    assert "." + ToLower("PDF") == ".pdf" == ValidExtensions[0];
  }

  /** "A.PDF" is sent as a PDF. */
  lemma UpperCasePdfMime()
    ensures GetMimeType("A.PDF") == "application/pdf"
  {
    ExtensionOfSuffix("A", "PDF");
    assert "A" + "." + "PDF" == "A.PDF";
    assert ToLower(".PDF") == ".pdf";
  }

  /** Only the last extension counts. */
  lemma DoubleExtensionRejected()
    ensures !IsValidFileType("a.pdf.exe")
  {
    AcceptsExactlyListed("a.pdf", "exe");
    assert "a.pdf" + "." + "exe" == "a.pdf.exe";
    assert ToLower("exe") == "exe";
  }

  /** A name without an extension is refused. */
  lemma NoExtensionRejected()
    ensures !IsValidFileType("noext")
  {
    assert LastDotOrSlash("noext", 5) == -1;
  }

  /** A TIFF scan is a valid file type. */
  lemma TiffAccepted()
    ensures IsValidFileType("scan.tiff")
  {
    AcceptsExactlyListed("scan", "tiff");
    assert "scan" + "." + "tiff" == "scan.tiff";
    assert "." + ToLower("tiff") == ".tiff" == ValidExtensions[4];
  }

  /** A TIFF scan has no specific MIME type. */
  lemma TiffSentAsOctetStream()
    ensures GetMimeType("scan.tiff") == OctetStream
  {
    ExtensionOfSuffix("scan", "tiff");
    assert "scan" + "." + "tiff" == "scan.tiff";
    assert ToLower(".tiff") == ".tiff";
  }
}
