/** ProcessInvoicesCommandValidator
    (BillingExtractor.Application/Validators/ProcessInvoicesCommandValidator.cs):
    the request rules of a batch upload, as the failure messages they
    produce. Every rule runs, so one file can fail several; the file-list
    rules come first, then each file's rules in file order. */
module CommandValidation {
  import opened Text
  import opened Dtos
  import opened FileTypes

  const MaxFiles: nat := 10
  const MaxFileSize: nat := 10 * 1024 * 1024

  const AtLeastOneFile := "At least one file is required"
  const TooManyFiles := "Maximum 10 files allowed per request"
  const EmptyFile := "File cannot be empty"
  const FileTooLarge := "File size cannot exceed 10MB"
  const WrongFileType := "Only PDF, JPG, JPEG, and PNG files are allowed"

  /** The file-name rule: ends with .pdf, .jpg, .jpeg or .png, ignoring case. */
  predicate AllowedName(fileName: string) {
    || EndsWithIgnoreCase(fileName, ".pdf") || EndsWithIgnoreCase(fileName, ".jpg")
    || EndsWithIgnoreCase(fileName, ".jpeg") || EndsWithIgnoreCase(fileName, ".png")
  }

  /** The three rules of one file, in order. */
  function FileFailures(file: FileUpload): seq<string> {
    (if |file.content| > 0 then [] else [EmptyFile])
    + (if |file.content| <= MaxFileSize then [] else [FileTooLarge])
    + (if AllowedName(file.fileName) then [] else [WrongFileType])
  }

  /** The file rules over the first n files. */
  function FilesFailures(files: seq<FileUpload>, n: nat): seq<string>
    requires n <= |files|
  {
    if n == 0 then [] else FilesFailures(files, n - 1) + FileFailures(files[n - 1])
  }

  /** The validator's failures for a command with these files. */
  function Validate(files: seq<FileUpload>): (r: seq<string>)
    ensures files == [] ==> r == [AtLeastOneFile]
    ensures |files| > MaxFiles ==> |r| > 0 && r[0] == TooManyFiles
  {
    (if files == [] then [AtLeastOneFile] else [])
    + (if |files| <= MaxFiles then [] else [TooManyFiles])
    + FilesFailures(files, |files|)
  }

  /** A file passes all of its rules. */
  predicate FileAccepted(file: FileUpload) {
    0 < |file.content| <= MaxFileSize && AllowedName(file.fileName)
  }

  lemma {:induction false} FilesFailuresEmpty(files: seq<FileUpload>, n: nat)
    requires n <= |files|
    ensures FilesFailures(files, n) == [] <==> forall i :: 0 <= i < n ==> FileAccepted(files[i])
  {
    if n > 0 {
      FilesFailuresEmpty(files, n - 1);
    }
  }

  /** A command is accepted exactly when it holds one to ten files, each
      non-empty, at most 10 MB, and named .pdf, .jpg, .jpeg or .png. */
  lemma ValidIff(files: seq<FileUpload>)
    ensures Validate(files) == [] <==>
              1 <= |files| <= MaxFiles && forall i :: 0 <= i < |files| ==> FileAccepted(files[i])
  {
    FilesFailuresEmpty(files, |files|);
  }

  /** A lower-case name ending in "." + t, for a run t without '.' or '/',
      is judged on t by `IsValidFileType`. */
  lemma EndsWithExtension(name: string, t: string)
    requires t != [] && ToLower(t) == t
    requires forall i :: 0 <= i < |t| ==> t[i] != '.' && t[i] != '/'
    requires EndsWith(ToLower(name), "." + t)
    ensures IsValidFileType(name) <==> "." + t in ValidExtensions
  {
    var l := ToLower(name);
    var p := l[..|l| - |t| - 1];
    assert l == p + ("." + t);
    assert p + "." + t == p + ("." + t);
    AcceptsExactlyListed(p, t);
    CaseInsensitive(name);
  }

  /** The four extensions the validator allows, as it spells them. */
  const AllowedExtensions: seq<string> := [".pdf", ".jpg", ".jpeg", ".png"]

  /** Each is lower-case, a dot and a run without '.' or '/', and listed
      by `IsValidFileType`. */
  lemma AllowedExtensionShape(k: nat)
    requires k < |AllowedExtensions|
    ensures var e := AllowedExtensions[k];
            && |e| >= 2 && e[0] == '.' && ToLower(e) == e && e in ValidExtensions
            && forall i :: 1 <= i < |e| ==> e[i] != '.' && e[i] != '/'
  {
    assert ValidExtensions[k] == AllowedExtensions[k];
  }

  /** A name ending, in any case, in one of them passes `IsValidFileType`. */
  lemma ListedExtension(name: string, k: nat)
    requires k < |AllowedExtensions|
    requires EndsWithIgnoreCase(name, AllowedExtensions[k])
    ensures IsValidFileType(name)
  {
    var e := AllowedExtensions[k];
    AllowedExtensionShape(k);
    var t := e[1..];
    assert e == "." + t;
    EndsWithExtension(name, t);
  }

  /** Every name the validator allows passes `IsValidFileType`. */
  lemma AllowedIsValidType(name: string)
    requires AllowedName(name)
    ensures IsValidFileType(name)
  {
    if EndsWithIgnoreCase(name, ".pdf") {
      ListedExtension(name, 0);
    } else if EndsWithIgnoreCase(name, ".jpg") {
      ListedExtension(name, 1);
    } else if EndsWithIgnoreCase(name, ".jpeg") {
      ListedExtension(name, 2);
    } else {
      ListedExtension(name, 3);
    }
  }

  /** So a command that passes validation holds no file the handler would
      refuse as an invalid type. */
  lemma AcceptedFilesHaveValidTypes(files: seq<FileUpload>)
    requires Validate(files) == []
    ensures forall i :: 0 <= i < |files| ==> IsValidFileType(files[i].fileName)
  {
    ValidIff(files);
    forall i | 0 <= i < |files|
      ensures IsValidFileType(files[i].fileName)
    {
      AllowedIsValidType(files[i].fileName);
    }
  }

  /** The converse fails: `IsValidFileType` accepts a TIFF scan (see
      `FileTypes.TiffAccepted`) that the validator refuses. */
  lemma TiffRefusedByValidator()
    ensures Validate([FileUpload("scan.tiff", [0])]) == [WrongFileType]
  {
    var f := FileUpload("scan.tiff", [0]);
    var l := ToLower("scan.tiff");
    assert |l| == 9 && l[4] == '.' && l[5] == 't';
    assert ToLower(".pdf") == ".pdf" && ToLower(".jpg") == ".jpg";
    assert ToLower(".jpeg") == ".jpeg" && ToLower(".png") == ".png";
    assert !EndsWith(l, ".pdf") && !EndsWith(l, ".jpg") && !EndsWith(l, ".png") by {
      assert l[5..][0] == 't';
    }
    assert !EndsWith(l, ".jpeg") by {
      assert l[4..][1] == 't';
    }
    assert FilesFailures([f], 1) == FileFailures(f);
  }
}
