/** What one call of `ProcessInvoiceAsync` and the batch loops over it do
    to the repository and to the outside world, stated over `Process`,
    `ProcessAll` and `BatchResponse`. */
module ProcessingSteps {
  import opened Results
  import opened Invoices
  import opened Repositories
  import opened Dtos
  import opened ProcessingService
  import opened ProcessingProperties

  /** The file's hash is not stored yet and saving the file succeeds: the
      point from which the pipeline always stores exactly one record. */
  predicate Reached(invoices: seq<InvoiceRecord>, file: FileUpload, s: Services) {
    GetByFileHash(invoices, s.hashOf(file.content)).None? && s.saveFile(file.fileName, file.content).Success?
  }

  /** A file whose content hash is already stored is refused with the stored
      invoice's number, before it is saved or extracted, and nothing is
      stored. */
  lemma KnownHashShortCircuits(invoices: seq<InvoiceRecord>, file: FileUpload, given: Fresh, s: Services)
    requires GetByFileHash(invoices, s.hashOf(file.content)).Some?
    ensures var step := Process(invoices, file, given, s);
            var existing := GetByFileHash(invoices, s.hashOf(file.content)).value;
            && step.result == Failure(DuplicateContentMessage(existing.invoiceNumber))
            && step.invoices == invoices && step.effects == []
  {
  }

  /** A failing `SaveFileAsync` happens before the `try`: its failure is
      raised as it is and no record is stored. */
  lemma SaveFailureStoresNothing(invoices: seq<InvoiceRecord>, file: FileUpload, given: Fresh, s: Services)
    requires GetByFileHash(invoices, s.hashOf(file.content)).None?
    requires s.saveFile(file.fileName, file.content).Failure?
    ensures var step := Process(invoices, file, given, s);
            && step.result == Failure(s.saveFile(file.fileName, file.content).error)
            && step.invoices == invoices && step.effects == [SaveFile(file.fileName)]
  {
  }

  /** The file is saved exactly when its hash is new, the extractor is asked
      exactly when it was saved, and exactly then one record is appended
      after the stored ones, carrying the file's hash, name and path. */
  lemma StoresAtMostOne(invoices: seq<InvoiceRecord>, file: FileUpload, given: Fresh, s: Services)
    ensures var step := Process(invoices, file, given, s);
            && (SaveFile(file.fileName) in step.effects <==> GetByFileHash(invoices, s.hashOf(file.content)).None?)
            && (Extract(file.fileName) in step.effects <==> Reached(invoices, file, s))
            && |step.invoices| == |invoices| + (if Reached(invoices, file, s) then 1 else 0)
            && step.invoices[..|invoices|] == invoices
            && (Reached(invoices, file, s) ==>
                  var stored := step.invoices[|invoices|];
                  && stored.fileHash == s.hashOf(file.content)
                  && stored.originalFileName == file.fileName
                  && stored.filePath == s.saveFile(file.fileName, file.content).value)
  {
    var step := Process(invoices, file, given, s);
    var hash := s.hashOf(file.content);
    if Reached(invoices, file, s) {
      var path := s.saveFile(file.fileName, file.content).value;
      var extracted := s.extract(file.fileName, file.content);
      if extracted.Success? {
        var dto := extracted.value;
        PipelineIff(invoices, dto, given, file.fileName, hash, path);
      }
      assert step.invoices[..|invoices|] == invoices;
    }
  }

  /** A call returns the new invoice's id exactly when the hash is new, the
      file is saved, the extractor answers and every header field and line
      item is accepted; the invoice stored is then the one the pipeline
      built. */
  lemma SucceedsIff(invoices: seq<InvoiceRecord>, file: FileUpload, given: Fresh, s: Services)
    ensures var step := Process(invoices, file, given, s);
            var extracted := s.extract(file.fileName, file.content);
            && (step.result.Success? <==>
                  && Reached(invoices, file, s) && extracted.Success?
                  && HeaderAccepted(extracted.value) && AllAccepted(extracted.value.lineItems))
            && (step.result.Success? ==>
                  && step.result.value == given.id
                  && step.invoices == invoices + [Pipeline(invoices, extracted.value, given, file.fileName,
                                                           s.hashOf(file.content),
                                                           s.saveFile(file.fileName, file.content).value).value]
                  && step.invoices[|invoices|].id == given.id)
  {
    if Reached(invoices, file, s) {
      var extracted := s.extract(file.fileName, file.content);
      if extracted.Success? {
        PipelineIff(invoices, extracted.value, given, file.fileName, s.hashOf(file.content),
                    s.saveFile(file.fileName, file.content).value);
      }
    }
  }

  /** Any failure inside the `try` is raised after one PROCESSING_FAILED
      record is stored: status Failed, the failure's message as processing
      error, and the file's hash, so that the content cannot be sent again. */
  lemma FailureIsRecorded(invoices: seq<InvoiceRecord>, file: FileUpload, given: Fresh, s: Services)
    requires Reached(invoices, file, s)
    requires Process(invoices, file, given, s).result.Failure?
    ensures var step := Process(invoices, file, given, s);
            var stored := step.invoices[|invoices|];
            && |step.invoices| == |invoices| + 1
            && stored.invoiceNumber == "PROCESSING_FAILED" && stored.status == Failed
            && stored.processingError == Some(step.result.error)
            && stored.fileHash == s.hashOf(file.content) && stored.originalFileName == file.fileName
            && stored.id == given.failedId
  {
    StoresAtMostOne(invoices, file, given, s);
  }

  /** Every call keeps the file-hash index unique. */
  lemma KeepsHashesUnique(invoices: seq<InvoiceRecord>, file: FileUpload, given: Fresh, s: Services)
    requires HashesUnique(invoices)
    ensures HashesUnique(Process(invoices, file, given, s).invoices)
  {
    var after := Process(invoices, file, given, s).invoices;
    StoresAtMostOne(invoices, file, given, s);
    if Reached(invoices, file, s) {
      var hash := s.hashOf(file.content);
      forall i, j | 0 <= i < j < |after|
        ensures after[i].fileHash != after[j].fileHash
      {
        if j == |invoices| {
          assert after[i] == invoices[i];
        } else {
          assert after[i] == invoices[i] && after[j] == invoices[j];
        }
      }
    }
  }

  /** Once a file has reached storage, the same content is refused on
      every later upload, whatever its name, and nothing more is stored. */
  lemma SameContentTwice(invoices: seq<InvoiceRecord>, file: FileUpload, again: FileUpload,
                         first: Fresh, second: Fresh, s: Services)
    requires Reached(invoices, file, s) && again.content == file.content
    ensures var after := Process(invoices, file, first, s).invoices;
            var step := Process(after, again, second, s);
            && step.result.Failure? && step.invoices == after && step.effects == []
  {
    var after := Process(invoices, file, first, s).invoices;
    StoresAtMostOne(invoices, file, first, s);
    assert after[|invoices|].fileHash == s.hashOf(again.content);
    KnownHashShortCircuits(after, again, second, s);
  }

  /** Every turn appends at most one record to the repository it is given
      and keeps a unique hash index unique. */
  ghost predicate AppendsAtMostOne(step: (seq<InvoiceRecord>, FileUpload, Fresh) -> Step) {
    forall repo, file, given ::
      var after := step(repo, file, given).invoices;
      && |repo| <= |after| <= |repo| + 1 && after[..|repo|] == repo
      && (HashesUnique(repo) ==> HashesUnique(after))
  }

  /** Every successful turn answers with the fresh id it was given. */
  ghost predicate AnswersGivenId(step: (seq<InvoiceRecord>, FileUpload, Fresh) -> Step) {
    forall repo, file, given ::
      step(repo, file, given).result.Success? ==> step(repo, file, given).result.value == given.id
  }

  lemma ProcessTurns(s: Services)
    ensures AppendsAtMostOne(ProcessWith(s)) && AnswersGivenId(ProcessWith(s))
  {
    forall repo, file, given
      ensures var after := ProcessWith(s)(repo, file, given).invoices;
              && |repo| <= |after| <= |repo| + 1 && after[..|repo|] == repo
              && (HashesUnique(repo) ==> HashesUnique(after))
    {
      StoresAtMostOne(repo, file, given, s);
      if HashesUnique(repo) {
        KeepsHashesUnique(repo, file, given, s);
      }
    }
  }

  /** A loop over turns that only append keeps the records it started with
      as a prefix, grows by at most one per file and keeps the hash index
      unique. */
  lemma {:induction false} FoldRepository(invoices: seq<InvoiceRecord>, files: seq<FileUpload>, given: seq<Fresh>,
                                          step: (seq<InvoiceRecord>, FileUpload, Fresh) -> Step, n: nat)
    requires n <= |files| == |given|
    requires AppendsAtMostOne(step) && HashesUnique(invoices)
    ensures var repo := Fold(invoices, files, given, step, n).1;
            && |invoices| <= |repo| <= |invoices| + n
            && repo[..|invoices|] == invoices
            && HashesUnique(repo)
  {
    if n > 0 {
      FoldRepository(invoices, files, given, step, n - 1);
      var repo := Fold(invoices, files, given, step, n - 1).1;
      var after := step(repo, files[n - 1], given[n - 1]).invoices;
      assert after[..|invoices|] == after[..|repo|][..|invoices|];
    }
  }

  /** A loop over turns that answer with their given id returns at most one
      id per file, each the id given to one of them. */
  lemma {:induction false} FoldIds(invoices: seq<InvoiceRecord>, files: seq<FileUpload>, given: seq<Fresh>,
                                   step: (seq<InvoiceRecord>, FileUpload, Fresh) -> Step, n: nat)
    requires n <= |files| == |given|
    requires AnswersGivenId(step)
    ensures var ids := Fold(invoices, files, given, step, n).0;
            && |ids| <= n
            && forall k :: 0 <= k < |ids| ==> exists j :: 0 <= j < n && ids[k] == given[j].id
  {
    if n > 0 {
      FoldIds(invoices, files, given, step, n - 1);
      var (ids, repo, effects) := Fold(invoices, files, given, step, n - 1);
      var next := Fold(invoices, files, given, step, n).0;
      forall k | 0 <= k < |next|
        ensures exists j :: 0 <= j < n && next[k] == given[j].id
      {
        if k < |ids| {
          var j :| 0 <= j < n - 1 && ids[k] == given[j].id;
          assert next[k] == ids[k];
        } else {
          assert next[k] == given[n - 1].id;
        }
      }
    }
  }

  /** Turn j of a loop succeeds: the step on file j, run against the
      repository left by the turns before it, returns an id. */
  predicate TurnSucceeds(invoices: seq<InvoiceRecord>, files: seq<FileUpload>, given: seq<Fresh>,
                         step: (seq<InvoiceRecord>, FileUpload, Fresh) -> Step, j: nat)
    requires j < |files| == |given|
  {
    step(Fold(invoices, files, given, step, j).1, files[j], given[j]).result.Success?
  }

  /** The ids given to the files whose turn succeeded, among the first n,
      in the order of the files. */
  function Successes(invoices: seq<InvoiceRecord>, files: seq<FileUpload>, given: seq<Fresh>,
                     step: (seq<InvoiceRecord>, FileUpload, Fresh) -> Step, n: nat): (r: seq<nat>)
    requires n <= |files| == |given|
    ensures |r| <= n
    ensures forall j :: 0 <= j < n && TurnSucceeds(invoices, files, given, step, j) ==> given[j].id in r
  {
    if n == 0 then []
    else
      var before := Successes(invoices, files, given, step, n - 1);
      if TurnSucceeds(invoices, files, given, step, n - 1) then before + [given[n - 1].id] else before
  }

  /** A loop over turns that answer with their given id returns exactly the
      ids of the files that went through, in order. */
  lemma {:induction false} FoldIdsAreSuccesses(invoices: seq<InvoiceRecord>, files: seq<FileUpload>, given: seq<Fresh>,
                                               step: (seq<InvoiceRecord>, FileUpload, Fresh) -> Step, n: nat)
    requires n <= |files| == |given|
    requires AnswersGivenId(step)
    ensures Fold(invoices, files, given, step, n).0 == Successes(invoices, files, given, step, n)
  {
    if n > 0 {
      FoldIdsAreSuccesses(invoices, files, given, step, n - 1);
    }
  }

  /** `ProcessInvoicesAsListAsync` never loses a stored invoice: the
      repository only grows, by at most one record per file, its hash index
      stays unique, and the ids returned, at most one per file, are the
      fresh ids of the files that went through. */
  lemma ProcessAllInvariant(invoices: seq<InvoiceRecord>, files: seq<FileUpload>, given: seq<Fresh>, s: Services)
    requires |files| == |given| && HashesUnique(invoices)
    ensures var (ids, repo, effects) := ProcessAll(invoices, files, given, s, |files|);
            && |invoices| <= |repo| <= |invoices| + |files|
            && repo[..|invoices|] == invoices
            && HashesUnique(repo)
            && |ids| <= |files|
            && forall k :: 0 <= k < |ids| ==> exists j :: 0 <= j < |files| && ids[k] == given[j].id
  {
    ProcessTurns(s);
    FoldRepository(invoices, files, given, ProcessWith(s), |files|);
    FoldIds(invoices, files, given, ProcessWith(s), |files|);
  }

  /** The ids `ProcessInvoicesAsListAsync` returns are the fresh ids of
      exactly the files whose turn succeeded, in input order. */
  lemma ProcessAllIds(invoices: seq<InvoiceRecord>, files: seq<FileUpload>, given: seq<Fresh>, s: Services)
    requires |files| == |given|
    ensures ProcessAll(invoices, files, given, s, |files|).0 == Successes(invoices, files, given, ProcessWith(s), |files|)
  {
    ProcessTurns(s);
    FoldIdsAreSuccesses(invoices, files, given, ProcessWith(s), |files|);
  }

  /** `ProcessInvoicesAsync` accounts for every file: each is either
      processed or reported as an error, and the response succeeds exactly
      when no extraction failed. */
  lemma {:induction false} ExtractAllCounts(files: seq<FileUpload>, s: Services, n: nat)
    requires n <= |files|
    ensures var (results, errors) := ExtractAll(files, s, n);
            && |results| + |errors| == n
            && (errors == [] <==> forall i :: 0 <= i < n ==> s.extract(files[i].fileName, files[i].content).Success?)
  {
    if n > 0 {
      ExtractAllCounts(files, s, n - 1);
    }
  }

  lemma BatchResponseCounts(files: seq<FileUpload>, s: Services)
    ensures var r := BatchResponse(files, s);
            && r.totalProcessed + r.totalFailed == |files|
            && r.totalProcessed == |r.invoices| && r.totalFailed == |r.errors|
            && (r.success <==> r.totalFailed == 0)
            && (r.success <==> forall i :: 0 <= i < |files| ==> s.extract(files[i].fileName, files[i].content).Success?)
  {
    ExtractAllCounts(files, s, |files|);
  }
}
