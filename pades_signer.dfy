/**
 * PdfPadesSigner as an object: its configuration, its revocation clients,
 * its temporary storage, and the profiles as methods. Every operation is
 * proved to follow the corresponding function of PadesModel; the stages
 * that call into signing, validation and timestamping code are recorded in
 * trace, and whether each returns or throws is the parameter ok.
 */
module PadesSigner {
  import opened Wrappers
  import opened PadesModel

  /** The static increment shared by every signer, together with LOCK_OBJECT that guards it. */
  class TempCounter {
    var increment: nat

    constructor ()
      ensures increment == 0
    {
      increment := 0;
    }
  }

  /** The directories and files temporary storage looks at and creates. */
  class FileSystem {
    var directories: set<string>
    var files: set<string>

    constructor (directories: set<string>, files: set<string>)
      ensures this.directories == directories && this.files == files
    {
      this.directories := directories;
      this.files := files;
    }
  }

  /** The caller's PdfSigner: the field it signs and the stream it writes to. */
  class PdfSigner {
    const fieldName: string
    var originalOS: Stream

    constructor (fieldName: string)
      ensures this.fieldName == fieldName && originalOS == Caller
    {
      this.fieldName := fieldName;
      originalOS := Caller;
    }
  }

  class PdfPadesSigner {
    var ocspClient: Option<OcspClient>
    var crlClient: Option<CrlClient>
    var estimatedSize: int
    var timestampSignatureName: Option<string>
    var temporaryDirectoryPath: Option<string>
    /** The latest ByteArrayOutputStream, by the number of buffers created before it. */
    var tempOutputStream: Option<nat>
    var tempFile: Option<string>
    var tempFiles: set<string>
    /** How many buffers this signer has created. */
    var buffers: nat
    /** The stages run so far. */
    var trace: seq<Event>
    const counter: TempCounter
    const fs: FileSystem

    /** A signer for one signing operation, with the default configuration. */
    constructor (counter: TempCounter, fs: FileSystem)
      ensures this.counter == counter && this.fs == fs
      ensures ocspClient.None? && crlClient.None? && estimatedSize == 0
      ensures timestampSignatureName.None? && temporaryDirectoryPath.None?
      ensures tempOutputStream.None? && tempFile.None? && tempFiles == {} && buffers == 0
      ensures trace == []
    {
      this.counter := counter;
      this.fs := fs;
      ocspClient, crlClient, estimatedSize := None, None, 0;
      timestampSignatureName, temporaryDirectoryPath := None, None;
      tempOutputStream, tempFile, tempFiles, buffers := None, None, {}, 0;
      trace := [];
    }

    /** The temporary-storage state, as PadesModel sees it. */
    function Store(): TempStore
      reads this`temporaryDirectoryPath, this`tempFiles, this`tempFile, this`tempOutputStream, this`buffers
      reads counter, fs
    {
      TempStore(temporaryDirectoryPath, fs.directories, fs.files, counter.increment,
                tempFiles, tempFile, tempOutputStream, buffers)
    }

    method SetTemporaryDirectoryPath(path: Option<string>)
      modifies this`temporaryDirectoryPath
      ensures temporaryDirectoryPath == path
    {
      temporaryDirectoryPath := path;
    }

    method SetTimestampSignatureName(name: Option<string>)
      modifies this`timestampSignatureName
      ensures timestampSignatureName == name
    {
      timestampSignatureName := name;
    }

    method SetEstimatedSize(size: int)
      modifies this`estimatedSize
      ensures estimatedSize == size
    {
      estimatedSize := size;
    }

    method SetOcspClient(client: Option<OcspClient>)
      modifies this`ocspClient
      ensures ocspClient == client
    {
      ocspClient := client;
    }

    method SetCrlClient(client: Option<CrlClient>)
      modifies this`crlClient
      ensures crlClient == client
    {
      crlClient := client;
    }

    /**
     * getNextTempFile: bump the shared counter until no file or directory
     * has the candidate name, and track that file. The directory must exist.
     */
    method GetNextTempFile() returns (r: Result<string, Error>)
      requires temporaryDirectoryPath.Some?
      modifies this`tempFile, this`tempFiles, counter
      ensures var dir := temporaryDirectoryPath.value;
              if dir !in fs.directories then
                && r == Failure(PathIsNotDirectory(dir))
                && counter.increment == old(counter.increment)
                && tempFile == old(tempFile) && tempFiles == old(tempFiles)
              else
                && counter.increment == NextFreeIndex(dir, fs.files + fs.directories, old(counter.increment))
                && counter.increment > old(counter.increment)
                && r == Success(TempName(dir, counter.increment))
                && r.value !in fs.files && r.value !in fs.directories
                && tempFile == Some(r.value)
                && tempFiles == old(tempFiles) + {r.value}
    {
      var dir := temporaryDirectoryPath.value;
      if dir !in fs.directories {
        return Failure(PathIsNotDirectory(dir));
      }
      ghost var start := counter.increment;
      ghost var stop := NextFreeIndex(dir, fs.files + fs.directories, start);
      counter.increment := counter.increment + 1;
      var name := TempName(dir, counter.increment);
      tempFile := Some(name);
      while name in fs.files || name in fs.directories
        invariant start < counter.increment <= stop
        invariant name == TempName(dir, counter.increment) && tempFile == Some(name)
        invariant tempFiles == old(tempFiles)
        decreases stop - counter.increment
      {
        counter.increment := counter.increment + 1;
        name := TempName(dir, counter.increment);
        tempFile := Some(name);
      }
      tempFiles := tempFiles + {name};
      r := Success(name);
    }

    /** createOutputStream: a fresh buffer, or the next temporary file, which is created. */
    method CreateOutputStream() returns (r: Result<Stream, Error>)
      modifies this`tempOutputStream, this`tempFile, this`tempFiles, this`buffers, counter, fs`files
      ensures (r, Store()) == CreateOutput(old(Store()))
    {
      if temporaryDirectoryPath.Some? {
        var f := GetNextTempFile();
        match f
        case Failure(e) =>
          r := Failure(e);
        case Success(path) =>
          fs.files := fs.files + {path};
          r := Success(TempFile(path));
      } else {
        tempOutputStream := Some(buffers);
        r := Success(Buffer(buffers));
        buffers := buffers + 1;
      }
    }

    /** createInputStream: read back what the latest temporary stream holds. */
    method CreateInputStream() returns (src: Source)
      requires temporaryDirectoryPath.Some? ==> tempFile.Some?
      requires temporaryDirectoryPath.None? ==> tempOutputStream.Some?
      ensures src == InputOf(Store())
    {
      if temporaryDirectoryPath.Some? {
        src := FromFile(tempFile.value);
      } else {
        src := FromBuffer(tempOutputStream.value);
      }
    }

    /** createRevocationClients: resolve both clients, or fail leaving them as they were. */
    method CreateRevocationClients(chain: seq<Certificate>, required: bool) returns (r: Outcome<Error>)
      modifies this`ocspClient, this`crlClient
      ensures match ResolveClients(old(ocspClient), old(crlClient), chain, required)
              case Failure(e) => r == Fail(e) && ocspClient == old(ocspClient) && crlClient == old(crlClient)
              case Success(p) => r == Pass && ocspClient == Some(p.0) && crlClient == Some(p.1)
    {
      if crlClient.None? && ocspClient.None? && required {
        if |chain| == 0 {
          return Fail(ChainIndexOutOfBounds);
        }
        if chain[0].ocspUrl.None? && chain[0].crlUrl.None? {
          return Fail(DefaultClientsCannotBeCreated);
        }
      }
      if crlClient.None? {
        crlClient := Some(DefaultCrl(chain));
      }
      if ocspClient.None? {
        ocspClient := Some(DefaultOcsp);
      }
      r := Pass;
    }

    /** substituteOutputStream: point the signer at a new temporary stream and hand back its old one. */
    method SubstituteOutputStream(pdfSigner: PdfSigner) returns (r: Result<Stream, Error>)
      modifies this`tempOutputStream, this`tempFile, this`tempFiles, this`buffers, counter, fs`files
      modifies pdfSigner`originalOS
      ensures var (a, st) := CreateOutput(old(Store()));
              && Store() == st
              && match a
                 case Failure(e) => r == Failure(e) && pdfSigner.originalOS == old(pdfSigner.originalOS)
                 case Success(t) => r == Success(old(pdfSigner.originalOS)) && pdfSigner.originalOS == t
    {
      var originalOS := pdfSigner.originalOS;
      var out := CreateOutputStream();
      match out
      case Failure(e) =>
        r := Failure(e);
      case Success(t) =>
        pdfSigner.originalOS := t;
        r := Success(originalOS);
    }

    /** performSignDetached: sign, then close the signer's stream however signing ended. */
    method PerformSignDetached(pdfSigner: PdfSigner, chain: seq<Certificate>, tsa: Option<TsaClient>,
                               ok: Event -> bool) returns (r: Outcome<Error>)
      modifies this`trace
      ensures var run := SignRun(pdfSigner.fieldName, pdfSigner.originalOS, chain, tsa, estimatedSize, ok);
              trace == old(trace) + run.events && r == run.outcome
    {
      var sign := SignDetached(pdfSigner.fieldName, pdfSigner.originalOS, chain, tsa, estimatedSize);
      r := if ok(sign) then Pass else Fail(StageFailed(sign));
      trace := trace + [sign, CloseStream(pdfSigner.originalOS)];
    }

    /** performLtvVerification: one addVerification per name, in order, then merge. */
    method PerformLtvVerification(names: seq<string>, ok: Event -> bool) returns (r: Outcome<Error>)
      modifies this`trace
      ensures var run := LtvRun(names, ocspClient, crlClient, ok);
              trace == old(trace) + run.events && r == run.outcome
    {
      var i := 0;
      while i < |names|
        invariant 0 <= i <= |names|
        invariant trace == old(trace) + Verifications(names[..i], ocspClient, crlClient)
        invariant forall j :: 0 <= j < i ==> ok(AddVerification(names[j], ocspClient, crlClient))
      {
        var e := AddVerification(names[i], ocspClient, crlClient);
        VerificationsExtend(names, i, ocspClient, crlClient);
        trace := trace + [e];
        if !ok(e) {
          LtvRunAfter(names, i, ocspClient, crlClient, ok);
          LtvRunStep(names, i, ocspClient, crlClient, ok);
          return Fail(StageFailed(e));
        }
        i := i + 1;
      }
      LtvRunAfter(names, i, ocspClient, crlClient, ok);
      assert names[i..] == [];
      trace := trace + [MergeVerification];
      r := if ok(MergeVerification) then Pass else Fail(StageFailed(MergeVerification));
    }

    /** performTimestamping: a document timestamp written to out, with this signer's scratch storage. */
    method PerformTimestamping(out: Stream, tsa: Option<TsaClient>, ok: Event -> bool) returns (r: Outcome<Error>)
      modifies this`trace
      ensures var run := Stage(Timestamp(out, tsa, timestampSignatureName, tempOutputStream, tempFile), ok);
              trace == old(trace) + run.events && r == run.outcome
    {
      var e := Timestamp(out, tsa, timestampSignatureName, tempOutputStream, tempFile);
      trace := trace + [e];
      r := if ok(e) then Pass else Fail(StageFailed(e));
    }

    /** File.delete on one temporary file. */
    method DeleteFile(path: string)
      modifies this`trace, fs`files
      ensures fs.files == old(fs.files) - {path}
      ensures trace == old(trace) + [Event.DeleteFile(path)]
    {
      fs.files := fs.files - {path};
      trace := trace + [Event.DeleteFile(path)];
    }

    /** deleteTempFiles: delete every tracked file, in no particular order. */
    method DeleteTempFiles() returns (ghost deletions: seq<Event>)
      modifies this`trace, fs`files
      ensures fs.files == old(fs.files) - tempFiles
      ensures trace == old(trace) + deletions
      ensures DeletionsOf(deletions, tempFiles)
    {
      var all := tempFiles;
      var rest := all;
      ghost var done: set<string> := {};
      ghost var before, files := trace, fs.files;
      deletions := [];
      while rest != {}
        invariant rest + done == all && rest !! done
        invariant fs.files == files - done
        invariant trace == before + deletions
        invariant DeletionsOf(deletions, done)
        decreases |rest|
      {
        var f :| f in rest;
        DeletionsOfAdd(deletions, done, f);
        MoveOne(files, rest, done, all, f);
        DeleteFile(f);
        deletions := deletions + [Event.DeleteFile(f)];
        rest := rest - {f};
        done := done + {f};
      }
    }

    /** Baseline-B: a detached signature without a timestamp. */
    method SignWithBaselineBProfile(pdfSigner: PdfSigner, chain: seq<Certificate>, ok: Event -> bool)
      returns (r: Outcome<Error>)
      modifies this`trace
      ensures var run := BaselineT(pdfSigner.fieldName, pdfSigner.originalOS, chain, None, estimatedSize, ok);
              trace == old(trace) + run.events && r == run.outcome
    {
      r := PerformSignDetached(pdfSigner, chain, None, ok);
    }

    /** Baseline-T: a detached signature carrying a signature timestamp from tsa. */
    method SignWithBaselineTProfile(pdfSigner: PdfSigner, chain: seq<Certificate>, tsa: Option<TsaClient>,
                                    ok: Event -> bool) returns (r: Outcome<Error>)
      modifies this`trace
      ensures var run := BaselineT(pdfSigner.fieldName, pdfSigner.originalOS, chain, tsa, estimatedSize, ok);
              trace == old(trace) + run.events && r == run.outcome
    {
      r := PerformSignDetached(pdfSigner, chain, tsa, ok);
    }

    /**
     * The try block of Baseline-LT: sign onto a substituted temporary
     * stream, then reopen the result in append mode on the caller's stream
     * and add the evidence for the new signature.
     */
    method BaselineLTStages(pdfSigner: PdfSigner, chain: seq<Certificate>, tsa: Option<TsaClient>,
                            ok: Event -> bool) returns (r: Outcome<Error>)
      requires pdfSigner.originalOS == Caller && ocspClient.Some? && crlClient.Some?
      modifies this`tempOutputStream, this`tempFile, this`tempFiles, this`buffers, this`trace
      modifies counter, fs`files, pdfSigner`originalOS
      ensures var (run, st) := BaselineLT(old(Store()), pdfSigner.fieldName, chain, tsa, estimatedSize,
                                          ocspClient.value, crlClient.value, ok);
              && r == run.outcome
              && trace == old(trace) + run.events
              && Store() == st
              && pdfSigner.originalOS == (if CreateOutput(old(Store())).0.Success? then CreateOutput(old(Store())).0.value else Caller)
    {
      var substituted := SubstituteOutputStream(pdfSigner);
      match substituted {
        case Failure(e) =>
          r := Fail(e);
        case Success(originalOS) =>
          r := SignAndAppend(pdfSigner, originalOS, chain, tsa, ok);
      }
    }

    /**
     * The try block of Baseline-LT after substituteOutputStream returned:
     * performSignDetached, then the try-with-resources statement.
     */
    method SignAndAppend(pdfSigner: PdfSigner, originalOS: Stream, chain: seq<Certificate>, tsa: Option<TsaClient>,
                         ok: Event -> bool) returns (r: Outcome<Error>)
      requires temporaryDirectoryPath.Some? ==> tempFile.Some?
      requires temporaryDirectoryPath.None? ==> tempOutputStream.Some?
      modifies this`trace
      ensures var run := Then(SignRun(pdfSigner.fieldName, pdfSigner.originalOS, chain, tsa, estimatedSize, ok),
                              Then(Stage(OpenAppend(InputOf(Store()), originalOS), ok),
                                   Closing(LtvRun([pdfSigner.fieldName], ocspClient, crlClient, ok))));
              r == run.outcome && trace == old(trace) + run.events
    {
      r := PerformSignDetached(pdfSigner, chain, tsa, ok);
      if r.Pass? {
        var src := CreateInputStream();
        r := AppendedEvidence(src, originalOS, pdfSigner.fieldName, ok);
      }
    }

    /**
     * The try-with-resources statement of Baseline-LT: the append-mode
     * document on the caller's stream, performLtvVerification in its body,
     * and the document closed at its end.
     */
    method AppendedEvidence(src: Source, out: Stream, field: string, ok: Event -> bool) returns (r: Outcome<Error>)
      modifies this`trace
      ensures var run := Then(Stage(OpenAppend(src, out), ok), Closing(LtvRun([field], ocspClient, crlClient, ok)));
              r == run.outcome && trace == old(trace) + run.events
    {
      var open := OpenAppend(src, out);
      trace := trace + [open];
      if !ok(open) {
        return Fail(StageFailed(open));
      }
      r := PerformLtvVerification([field], ok);
      trace := trace + [CloseDocument];
    }

    /** The try block of Baseline-LT with deleteTempFiles in its finally block. */
    method BaselineLTStagesThenDelete(pdfSigner: PdfSigner, chain: seq<Certificate>, tsa: Option<TsaClient>,
                            ok: Event -> bool) returns (r: Outcome<Error>)
      requires pdfSigner.originalOS == Caller && ocspClient.Some? && crlClient.Some?
      modifies this`tempOutputStream, this`tempFile, this`tempFiles, this`buffers, this`trace
      modifies counter, fs`files, pdfSigner`originalOS
      ensures var (run, st) := BaselineLT(old(Store()), pdfSigner.fieldName, chain, tsa, estimatedSize,
                                          ocspClient.value, crlClient.value, ok);
              && r == run.outcome
              && Recorded(trace, old(trace), run.events, st.tracked)
              && Store() == DeleteTracked(st)
    {
      ghost var (run, st) := BaselineLT(Store(), pdfSigner.fieldName, chain, tsa, estimatedSize,
                                        ocspClient.value, crlClient.value, ok);
      r := BaselineLTStages(pdfSigner, chain, tsa, ok);
      assert trace == old(trace) + run.events && Store() == st;
      ghost var deletions := DeleteTempFiles();
      RecordedAfterDeletion(trace, old(trace), run.events, deletions, st.tracked);
    }

    /** Baseline-LT: resolve the clients, then the stages with deleteTempFiles in finally. */
    method SignWithBaselineLTProfile(pdfSigner: PdfSigner, chain: seq<Certificate>, tsa: Option<TsaClient>,
                                     ok: Event -> bool) returns (r: Outcome<Error>)
      requires pdfSigner.originalOS == Caller
      modifies this`ocspClient, this`crlClient, this`tempOutputStream, this`tempFile, this`tempFiles
      modifies this`buffers, this`trace, counter, fs`files, pdfSigner`originalOS
      ensures match ResolveClients(old(ocspClient), old(crlClient), chain, true)
              case Failure(e) =>
                && r == Fail(e) && trace == old(trace) && Store() == old(Store())
                && ocspClient == old(ocspClient) && crlClient == old(crlClient)
                && pdfSigner.originalOS == Caller
              case Success(p) =>
                var (run, st) := BaselineLT(old(Store()), pdfSigner.fieldName, chain, tsa, old(estimatedSize), p.0, p.1, ok);
                && ocspClient == Some(p.0) && crlClient == Some(p.1)
                && r == run.outcome
                && Recorded(trace, old(trace), run.events, st.tracked)
                && Store() == DeleteTracked(st)
    {
      r := CreateRevocationClients(chain, true);
      if r.Fail? {
        return;
      }
      r := BaselineLTStagesThenDelete(pdfSigner, chain, tsa, ok);
    }

    /**
     * The try block of Baseline-LTA: sign onto a substituted temporary
     * stream, reopen the result in append mode on a second temporary
     * stream, add the evidence, and write a document timestamp to the
     * caller's stream.
     */
    method BaselineLTAStages(pdfSigner: PdfSigner, chain: seq<Certificate>, tsa: Option<TsaClient>,
                             ok: Event -> bool) returns (r: Outcome<Error>)
      requires pdfSigner.originalOS == Caller && ocspClient.Some? && crlClient.Some?
      modifies this`tempOutputStream, this`tempFile, this`tempFiles, this`buffers, this`trace
      modifies counter, fs`files, pdfSigner`originalOS
      ensures var (run, st) := BaselineLTA(old(Store()), pdfSigner.fieldName, chain, tsa, estimatedSize,
                                           timestampSignatureName, ocspClient.value, crlClient.value, ok);
              && r == run.outcome
              && trace == old(trace) + run.events
              && Store() == st
              && pdfSigner.originalOS == (if CreateOutput(old(Store())).0.Success? then CreateOutput(old(Store())).0.value else Caller)
    {
      var substituted := SubstituteOutputStream(pdfSigner);
      match substituted {
        case Failure(e) =>
          r := Fail(e);
        case Success(originalOS) =>
          ghost var sign := SignRun(pdfSigner.fieldName, pdfSigner.originalOS, chain, tsa, estimatedSize, ok);
          ghost var rest := LtaAfterSigning(Store(), InputOf(Store()), pdfSigner.fieldName, tsa,
                                            timestampSignatureName, ocspClient.value, crlClient.value, ok);
          r := SignAndTimestamp(pdfSigner, originalOS, chain, tsa, ok);
          if sign.outcome.Pass? {
            ThenAfter(old(trace), sign, rest.0);
          }
      }
    }

    /**
     * The try block of Baseline-LTA after substituteOutputStream returned:
     * performSignDetached, then the try-with-resources statement.
     */
    method SignAndTimestamp(pdfSigner: PdfSigner, originalOS: Stream, chain: seq<Certificate>, tsa: Option<TsaClient>,
                            ok: Event -> bool) returns (r: Outcome<Error>)
      requires originalOS == Caller && ocspClient.Some? && crlClient.Some?
      requires temporaryDirectoryPath.Some? ==> tempFile.Some?
      requires temporaryDirectoryPath.None? ==> tempOutputStream.Some?
      modifies this`tempOutputStream, this`tempFile, this`tempFiles, this`buffers, this`trace
      modifies counter, fs`files
      ensures var sign := SignRun(pdfSigner.fieldName, pdfSigner.originalOS, chain, tsa, estimatedSize, ok);
              if sign.outcome.Fail? then r == sign.outcome && trace == old(trace) + sign.events && Store() == old(Store())
              else
                var (rest, st) := LtaAfterSigning(old(Store()), InputOf(old(Store())), pdfSigner.fieldName, tsa,
                                                  timestampSignatureName, ocspClient.value, crlClient.value, ok);
                r == rest.outcome && trace == old(trace) + sign.events + rest.events && Store() == st
    {
      r := PerformSignDetached(pdfSigner, chain, tsa, ok);
      if r.Pass? {
        r := EvidenceOnSecondStream(pdfSigner.fieldName, originalOS, tsa, ok);
      }
    }

    /**
     * The resource specification of Baseline-LTA's try-with-resources, in
     * Java's evaluation order: createInputStream, new PdfReader, then
     * createOutputStream for the PdfWriter; the rest is TimestampedEvidence.
     */
    method EvidenceOnSecondStream(field: string, originalOS: Stream, tsa: Option<TsaClient>,
                                  ok: Event -> bool) returns (r: Outcome<Error>)
      requires originalOS == Caller && ocspClient.Some? && crlClient.Some?
      requires temporaryDirectoryPath.Some? ==> tempFile.Some?
      requires temporaryDirectoryPath.None? ==> tempOutputStream.Some?
      modifies this`tempOutputStream, this`tempFile, this`tempFiles, this`buffers, this`trace
      modifies counter, fs`files
      ensures var (run, st) := LtaAfterSigning(old(Store()), InputOf(old(Store())), field, tsa, timestampSignatureName,
                                               ocspClient.value, crlClient.value, ok);
              r == run.outcome && trace == old(trace) + run.events && Store() == st
    {
      var src := CreateInputStream();
      var read := ReadDocument(src);
      trace := trace + [read];
      if !ok(read) {
        return Fail(StageFailed(read));
      }
      ghost var trace1 := trace;
      var out := CreateOutputStream();
      match out {
        case Failure(e) =>
          r := Fail(e);
        case Success(t) =>
          r := TimestampedEvidence(src, t, field, originalOS, tsa, ok);
          ThenAfter(old(trace), Stage(read, ok), Run(trace[|trace1|..], r));
      }
    }

    /**
     * The body of Baseline-LTA's try-with-resources: new PdfDocument in
     * append mode, performLtvVerification, performTimestamping, and the
     * document closed at the end.
     */
    method TimestampedEvidence(src: Source, out: Stream, field: string, originalOS: Stream,
                               tsa: Option<TsaClient>, ok: Event -> bool) returns (r: Outcome<Error>)
      modifies this`trace
      ensures var run := Then(Stage(OpenAppend(src, out), ok),
                              Closing(Then(LtvRun([field], ocspClient, crlClient, ok),
                                           Stage(Timestamp(originalOS, tsa, timestampSignatureName, tempOutputStream, tempFile), ok))));
              r == run.outcome && trace == old(trace) + run.events
    {
      var open := OpenAppend(src, out);
      trace := trace + [open];
      if !ok(open) {
        return Fail(StageFailed(open));
      }
      r := PerformLtvVerification([field], ok);
      if r.Pass? {
        r := PerformTimestamping(originalOS, tsa, ok);
      }
      trace := trace + [CloseDocument];
    }

    /** The try block of Baseline-LTA with deleteTempFiles in its finally block. */
    method BaselineLTAStagesThenDelete(pdfSigner: PdfSigner, chain: seq<Certificate>, tsa: Option<TsaClient>,
                            ok: Event -> bool) returns (r: Outcome<Error>)
      requires pdfSigner.originalOS == Caller && ocspClient.Some? && crlClient.Some?
      modifies this`tempOutputStream, this`tempFile, this`tempFiles, this`buffers, this`trace
      modifies counter, fs`files, pdfSigner`originalOS
      ensures var (run, st) := BaselineLTA(old(Store()), pdfSigner.fieldName, chain, tsa, estimatedSize, timestampSignatureName,
                                          ocspClient.value, crlClient.value, ok);
              && r == run.outcome
              && Recorded(trace, old(trace), run.events, st.tracked)
              && Store() == DeleteTracked(st)
    {
      ghost var (run, st) := BaselineLTA(Store(), pdfSigner.fieldName, chain, tsa, estimatedSize, timestampSignatureName,
                                         ocspClient.value, crlClient.value, ok);
      r := BaselineLTAStages(pdfSigner, chain, tsa, ok);
      assert trace == old(trace) + run.events && Store() == st;
      ghost var deletions := DeleteTempFiles();
      RecordedAfterDeletion(trace, old(trace), run.events, deletions, st.tracked);
    }

    /** Baseline-LTA: resolve the clients, then the stages with deleteTempFiles in finally. */
    method SignWithBaselineLTAProfile(pdfSigner: PdfSigner, chain: seq<Certificate>, tsa: Option<TsaClient>,
                                     ok: Event -> bool) returns (r: Outcome<Error>)
      requires pdfSigner.originalOS == Caller
      modifies this`ocspClient, this`crlClient, this`tempOutputStream, this`tempFile, this`tempFiles
      modifies this`buffers, this`trace, counter, fs`files, pdfSigner`originalOS
      ensures match ResolveClients(old(ocspClient), old(crlClient), chain, true)
              case Failure(e) =>
                && r == Fail(e) && trace == old(trace) && Store() == old(Store())
                && ocspClient == old(ocspClient) && crlClient == old(crlClient)
                && pdfSigner.originalOS == Caller
              case Success(p) =>
                var (run, st) := BaselineLTA(old(Store()), pdfSigner.fieldName, chain, tsa, old(estimatedSize), old(timestampSignatureName), p.0, p.1, ok);
                && ocspClient == Some(p.0) && crlClient == Some(p.1)
                && r == run.outcome
                && Recorded(trace, old(trace), run.events, st.tracked)
                && Store() == DeleteTracked(st)
    {
      r := CreateRevocationClients(chain, true);
      if r.Fail? {
        return;
      }
      assert Store() == old(Store());
      r := BaselineLTAStagesThenDelete(pdfSigner, chain, tsa, ok);
    }

    /**
     * The try-with-resources block of prolongSignatures: open the caller's
     * document in append mode on out, then evidence for every existing
     * signature and an optional document timestamp on the caller's stream.
     */
    method ProlongDocument(out: Stream, names: seq<string>, tsa: Option<TsaClient>, ok: Event -> bool)
      returns (r: Outcome<Error>)
      modifies this`ocspClient, this`crlClient, this`trace
      ensures var p := ResolveClients(old(ocspClient), old(crlClient), [], false).value;
              var run := Then(Stage(OpenAppend(CallerDocument, out), ok),
                              Closing(ProlongBody(names, p.0, p.1, tsa, timestampSignatureName, Store(), ok)));
              && r == run.outcome
              && trace == old(trace) + run.events
              && if ok(OpenAppend(CallerDocument, out)) && |names| > 0 then ocspClient == Some(p.0) && crlClient == Some(p.1)
                 else ocspClient == old(ocspClient) && crlClient == old(crlClient)
    {
      var open := OpenAppend(CallerDocument, out);
      trace := trace + [open];
      if !ok(open) {
        return Fail(StageFailed(open));
      }
      r := ProlongEvidence(names, tsa, ok);
      trace := trace + [CloseDocument];
    }

    /**
     * The body of prolongSignatures' try-with-resources statement: the
     * signature check, createRevocationClients, performLtvVerification and
     * the optional performTimestamping.
     */
    method ProlongEvidence(names: seq<string>, tsa: Option<TsaClient>, ok: Event -> bool) returns (r: Outcome<Error>)
      modifies this`ocspClient, this`crlClient, this`trace
      ensures var p := ResolveClients(old(ocspClient), old(crlClient), [], false).value;
              var run := ProlongBody(names, p.0, p.1, tsa, timestampSignatureName, Store(), ok);
              && r == run.outcome
              && trace == old(trace) + run.events
              && if |names| > 0 then ocspClient == Some(p.0) && crlClient == Some(p.1)
                 else ocspClient == old(ocspClient) && crlClient == old(crlClient)
    {
      if |names| == 0 {
        return Fail(NoSignaturesToProlong);
      }
      var resolved := CreateRevocationClients([], false);
      r := PerformLtvVerification(names, ok);
      if r.Pass? && tsa.Some? {
        r := PerformTimestamping(Caller, tsa, ok);
      }
    }

    /**
     * prolongSignatures as written: the document goes to the caller's stream
     * without a TSA client and to a temporary stream with one. It never calls
     * deleteTempFiles.
     */
    method ProlongSignatures(names: seq<string>, tsa: Option<TsaClient>, ok: Event -> bool)
      returns (r: Outcome<Error>)
      modifies this`ocspClient, this`crlClient, this`tempOutputStream, this`tempFile, this`tempFiles
      modifies this`buffers, this`trace, counter, fs`files
      ensures var (run, st) := Prolong(old(Store()), names, old(ocspClient), old(crlClient), tsa,
                                       timestampSignatureName, ok);
              && r == run.outcome
              && trace == old(trace) + run.events
              && Store() == st
              && if ProlongResolves(old(Store()), names, tsa, ok) then
                   var p := ResolveClients(old(ocspClient), old(crlClient), [], false).value;
                   ocspClient == Some(p.0) && crlClient == Some(p.1)
                 else ocspClient == old(ocspClient) && crlClient == old(crlClient)
    {
      var out: Stream;
      if tsa.None? {
        out := Caller;
      } else {
        var created := CreateOutputStream();
        match created
        case Failure(e) =>
          return Fail(e);
        case Success(t) =>
          out := t;
      }
      r := ProlongDocument(out, names, tsa, ok);
    }

    /**
     * prolongSignatures with deleteTempFiles in finally, as the LT and LTA
     * profiles do: afterwards no temporary file of this signer exists.
     */
    method ProlongSignaturesAndDeleteTempFiles(names: seq<string>, tsa: Option<TsaClient>, ok: Event -> bool)
      returns (r: Outcome<Error>)
      modifies this`ocspClient, this`crlClient, this`tempOutputStream, this`tempFile, this`tempFiles
      modifies this`buffers, this`trace, counter, fs`files
      ensures var (run, st) := ProlongAndDeleteTempFiles(old(Store()), names, old(ocspClient), old(crlClient), tsa,
                                                         timestampSignatureName, ok);
              && r == run.outcome
              && Recorded(trace, old(trace), run.events, Prolong(old(Store()), names, old(ocspClient), old(crlClient),
                                                                 tsa, timestampSignatureName, ok).1.tracked)
              && Store() == st
    {
      ghost var trace0 := trace;
      r := ProlongSignatures(names, tsa, ok);
      ghost var events := trace[|trace0|..];
      assert trace == trace0 + events;
      ghost var deletions := DeleteTempFiles();
      RecordedAfterDeletion(trace, trace0, events, deletions, tempFiles);
    }
  }

  /** The trace is before, then the run's events, then one deletion per tracked file. */
  ghost predicate Recorded(trace: seq<Event>, before: seq<Event>, events: seq<Event>, tracked: set<string>) {
    && |before| + |events| <= |trace|
    && trace[..|before| + |events|] == before + events
    && DeletionsOf(trace[|before| + |events|..], tracked)
  }

  lemma DeletionsOfAdd(ds: seq<Event>, paths: set<string>, p: string)
    requires DeletionsOf(ds, paths) && p !in paths
    ensures DeletionsOf(ds + [DeleteFile(p)], paths + {p})
  {
    assert |paths + {p}| == |paths| + 1;
  }

  /** Moving one path from the files still to delete to the deleted ones. */
  lemma MoveOne(files: set<string>, rest: set<string>, done: set<string>, all: set<string>, f: string)
    requires rest + done == all && rest !! done && f in rest
    ensures (rest - {f}) + (done + {f}) == all && (rest - {f}) !! (done + {f})
    ensures f !in done && |rest - {f}| < |rest|
    ensures files - done - {f} == files - (done + {f})
  {
  }

  lemma RecordedAfterDeletion(trace: seq<Event>, before: seq<Event>, events: seq<Event>, deletions: seq<Event>,
                              tracked: set<string>)
    requires trace == before + events + deletions && DeletionsOf(deletions, tracked)
    ensures Recorded(trace, before, events, tracked)
  {
    assert trace[..|before| + |events|] == before + events;
    assert trace[|before| + |events|..] == deletions;
  }

}
