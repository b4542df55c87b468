/**
 * The value-level model of a PdfPadesSigner session: what the temporary
 * storage and the revocation clients are, what each stage of a profile
 * does (as an opaque event that may fail), and the runs of the Baseline-B,
 * T, LT and LTA profiles and of prolongSignatures as functions of the state
 * they start from. The class in PadesSigner is proved to follow these runs.
 */
module PadesModel {
  import opened Wrappers
  import opened Numerals

  const TEMP_FILE_NAME := "tempPdfFile"

  /** An X.509 certificate, reduced to the revocation services it names. */
  datatype Certificate = Certificate(subject: string, ocspUrl: Option<string>, crlUrl: Option<string>)

  /** An OCSP client: one the caller set, or the default OcspClientBouncyCastle(null). */
  datatype OcspClient = CallerOcsp(id: nat) | DefaultOcsp

  /** A CRL client: one the caller set, or the default CrlClientOnline(chain). */
  datatype CrlClient = CallerCrl(id: nat) | DefaultCrl(chain: seq<Certificate>)

  datatype TsaClient = TsaClient(id: nat)

  /**
   * Output streams. Caller is any stream handed in by the caller; Buffer(k)
   * is the k-th ByteArrayOutputStream this signer created; TempFile(p) is a
   * file output stream on the temporary file p.
   */
  datatype Stream = Caller | Buffer(id: nat) | TempFile(path: string)

  /** Input documents: the caller's reader, a snapshot of a buffer, or a temporary file. */
  datatype Source = CallerDocument | FromBuffer(id: nat) | FromFile(path: string)

  /**
   * What a stage did, in the order it did it. ReadDocument is new PdfReader
   * on a temporary document read back; OpenAppend is the append-mode
   * PdfDocument with a PdfWriter on out (in Baseline-LT, where nothing runs
   * between the two, it stands for the reader as well).
   */
  datatype Event =
    | SignDetached(field: string, out: Stream, chain: seq<Certificate>, tsa: Option<TsaClient>, estimatedSize: int)
    | CloseStream(closed: Stream)
    | ReadDocument(input: Source)
    | OpenAppend(input: Source, out: Stream)
    | AddVerification(signatureName: string, ocsp: Option<OcspClient>, crl: Option<CrlClient>)
    | MergeVerification
    | Timestamp(out: Stream, tsa: Option<TsaClient>, timestampName: Option<string>,
                scratchBuffer: Option<nat>, scratchFile: Option<string>)
    | CloseDocument
    | DeleteFile(path: string)

  datatype Error =
    | PathIsNotDirectory(path: string)
    | DefaultClientsCannotBeCreated
    | ChainIndexOutOfBounds
    | NoSignaturesToProlong
    | StageFailed(stage: Event)

  /** The calls into code outside the model; each may throw. */
  predicate Fallible(e: Event) {
    e.SignDetached? || e.ReadDocument? || e.OpenAppend? || e.AddVerification? || e.MergeVerification? || e.Timestamp?
  }

  /** The stream an event starts writing a document revision to, if any. */
  function WritesTo(e: Event): Option<Stream> {
    match e
    case SignDetached(_, out, _, _, _) => Some(out)
    case OpenAppend(_, out) => Some(out)
    case Timestamp(out, _, _, _, _) => Some(out)
    case _ => None
  }

  predicate IsTemp(s: Stream) {
    s.Buffer? || s.TempFile?
  }

  /** Where the next stage reads a temporary stream back from. */
  function SourceOf(s: Stream): Source {
    match s
    case Caller => CallerDocument
    case Buffer(k) => FromBuffer(k)
    case TempFile(p) => FromFile(p)
  }

  // ---------------------------------------------------------------------
  // Runs: the events of a sequence of stages and how it ended.

  datatype Run = Run(events: seq<Event>, outcome: Outcome<Error>)

  /** Sequencing with exceptions: the second part runs only if the first passed. */
  function Then(first: Run, next: Run): Run {
    if first.outcome.Fail? then first else Run(first.events + next.events, next.outcome)
  }

  /** A trace extended by a passing run and then by the next one is extended by their sequence. */
  lemma ThenAfter(trace: seq<Event>, first: Run, next: Run)
    requires first.outcome.Pass?
    ensures trace + first.events + next.events == trace + Then(first, next).events
  {
  }

  /** One call into opaque code; ok says whether it returns or throws. */
  function Stage(e: Event, ok: Event -> bool): Run {
    Run([e], if ok(e) then Pass else Fail(StageFailed(e)))
  }

  const Done := Run([], Pass)

  /** try-with-resources around an opened document: it is closed whatever happened. */
  function Closing(body: Run): Run {
    Run(body.events + [CloseDocument], body.outcome)
  }

  /** performSignDetached: signDetached, then originalOS.close() in finally. */
  function SignRun(field: string, out: Stream, chain: seq<Certificate>, tsa: Option<TsaClient>,
                   size: int, ok: Event -> bool): Run
  {
    var sign := SignDetached(field, out, chain, tsa, size);
    Run([sign, CloseStream(out)], Stage(sign, ok).outcome)
  }

  function Verifications(names: seq<string>, o: Option<OcspClient>, c: Option<CrlClient>): (es: seq<Event>)
    ensures |es| == |names|
  {
    seq(|names|, i requires 0 <= i < |names| => AddVerification(names[i], o, c))
  }

  /** performLtvVerification: addVerification per name in order, then one merge. */
  function LtvRun(names: seq<string>, o: Option<OcspClient>, c: Option<CrlClient>, ok: Event -> bool): Run
    decreases |names|
  {
    if |names| == 0 then Stage(MergeVerification, ok)
    else Then(Stage(AddVerification(names[0], o, c), ok), LtvRun(names[1..], o, c, ok))
  }

  // ---------------------------------------------------------------------
  // Predicates the lemmas establish about runs.

  /** After a call that throws nothing but clean-up happens, and the run ends with that exception. */
  ghost predicate StopsAtFailure(r: Run, ok: Event -> bool) {
    forall i :: 0 <= i < |r.events| && Fallible(r.events[i]) && !ok(r.events[i]) ==>
      && r.outcome == Fail(StageFailed(r.events[i]))
      && forall j :: i < j < |r.events| ==> !Fallible(r.events[j])
  }

  /** Nothing starts writing to the caller's stream. */
  ghost predicate NoCallerWrite(es: seq<Event>) {
    forall i :: 0 <= i < |es| ==> WritesTo(es[i]) != Some(Caller)
  }

  /** Once something writes to the caller's stream, no stage writes anywhere any more. */
  ghost predicate CallerWrittenLast(es: seq<Event>) {
    forall i, j :: 0 <= i < j < |es| && WritesTo(es[i]) == Some(Caller) ==> WritesTo(es[j]).None?
  }

  /** Every write to the caller's stream is a document timestamp. */
  ghost predicate CallerOnlyTimestamped(es: seq<Event>) {
    forall i :: 0 <= i < |es| && WritesTo(es[i]) == Some(Caller) ==> es[i].Timestamp?
  }

  /** Every write to the caller's stream is the event e. */
  ghost predicate CallerOnlyBy(es: seq<Event>, e: Event) {
    forall i :: 0 <= i < |es| && WritesTo(es[i]) == Some(Caller) ==> es[i] == e
  }

  /** No stage writes any stream. */
  ghost predicate Silent(es: seq<Event>) {
    forall i :: 0 <= i < |es| ==> WritesTo(es[i]).None?
  }

  lemma StopsAtFailureThen(a: Run, b: Run, ok: Event -> bool)
    requires StopsAtFailure(a, ok) && StopsAtFailure(b, ok)
    ensures StopsAtFailure(Then(a, b), ok)
  {
    if a.outcome.Pass? {
      var es := a.events + b.events;
      forall i | 0 <= i < |es| && Fallible(es[i]) && !ok(es[i])
        ensures Then(a, b).outcome == Fail(StageFailed(es[i]))
        ensures forall j :: i < j < |es| ==> !Fallible(es[j])
      {
        assert forall k :: 0 <= k < |a.events| ==> es[k] == a.events[k];
        assert i >= |a.events|;
        assert es[i] == b.events[i - |a.events|];
        forall j | i < j < |es| ensures !Fallible(es[j]) {
          assert es[j] == b.events[j - |a.events|];
        }
      }
    }
  }

  lemma StopsAtFailureClosing(body: Run, ok: Event -> bool)
    requires StopsAtFailure(body, ok)
    ensures StopsAtFailure(Closing(body), ok)
  {
    var es := Closing(body).events;
    forall i | 0 <= i < |es| && Fallible(es[i]) && !ok(es[i])
      ensures Closing(body).outcome == Fail(StageFailed(es[i]))
      ensures forall j :: i < j < |es| ==> !Fallible(es[j])
    {
      assert es[i] == body.events[i];
      forall j | i < j < |es| ensures !Fallible(es[j]) {
        if j < |body.events| { assert es[j] == body.events[j]; }
      }
    }
  }

  lemma NoCallerWriteThen(a: Run, b: Run)
    requires NoCallerWrite(a.events) && NoCallerWrite(b.events)
    ensures NoCallerWrite(Then(a, b).events)
  {
    if a.outcome.Pass? {
      var es := a.events + b.events;
      assert forall i :: |a.events| <= i < |es| ==> es[i] == b.events[i - |a.events|];
    }
  }

  lemma CallerWrittenLastThen(a: Run, b: Run)
    requires NoCallerWrite(a.events) && CallerWrittenLast(b.events)
    ensures CallerWrittenLast(Then(a, b).events)
  {
    if a.outcome.Pass? {
      var es := a.events + b.events;
      assert forall k :: 0 <= k < |a.events| ==> es[k] == a.events[k];
      forall i, j | 0 <= i < j < |es| && WritesTo(es[i]) == Some(Caller)
        ensures WritesTo(es[j]).None?
      {
        assert i >= |a.events|;
        assert es[i] == b.events[i - |a.events|];
        assert es[j] == b.events[j - |a.events|];
      }
    }
  }

  lemma SilentThen(a: Run, b: Run)
    requires Silent(a.events) && Silent(b.events)
    ensures Silent(Then(a, b).events)
  {
    if a.outcome.Pass? {
      var es := a.events + b.events;
      assert forall i :: |a.events| <= i < |es| ==> es[i] == b.events[i - |a.events|];
    }
  }

  lemma SilentAfterCallerLast(a: Run, b: Run)
    requires CallerWrittenLast(a.events) && Silent(b.events)
    ensures CallerWrittenLast(Then(a, b).events)
  {
    if a.outcome.Pass? {
      var es := a.events + b.events;
      assert forall k :: 0 <= k < |a.events| ==> es[k] == a.events[k];
      assert forall k :: |a.events| <= k < |es| ==> es[k] == b.events[k - |a.events|];
    }
  }

  lemma CallerOnlyTimestampedThen(a: Run, b: Run)
    requires CallerOnlyTimestamped(a.events) && CallerOnlyTimestamped(b.events)
    ensures CallerOnlyTimestamped(Then(a, b).events)
  {
    if a.outcome.Pass? {
      var es := a.events + b.events;
      assert forall k :: 0 <= k < |a.events| ==> es[k] == a.events[k];
      assert forall k :: |a.events| <= k < |es| ==> es[k] == b.events[k - |a.events|];
    }
  }

  lemma CallerOnlyByThenSilent(a: Run, b: Run, e: Event)
    requires CallerOnlyBy(a.events, e) && Silent(b.events)
    ensures CallerOnlyBy(Then(a, b).events, e)
  {
    if a.outcome.Pass? {
      var es := a.events + b.events;
      assert forall k :: 0 <= k < |a.events| ==> es[k] == a.events[k];
      assert forall k :: |a.events| <= k < |es| ==> es[k] == b.events[k - |a.events|];
    }
  }

  lemma CallerOnlyByAfterPrefix(a: Run, b: Run, e: Event)
    requires NoCallerWrite(a.events) && CallerOnlyBy(b.events, e)
    ensures CallerOnlyBy(Then(a, b).events, e)
  {
    if a.outcome.Pass? {
      var es := a.events + b.events;
      assert forall k :: 0 <= k < |a.events| ==> es[k] == a.events[k];
      assert forall k :: |a.events| <= k < |es| ==> es[k] == b.events[k - |a.events|];
    }
  }

  lemma ClosingKeepsWrites(body: Run)
    ensures CallerWrittenLast(body.events) ==> CallerWrittenLast(Closing(body).events)
    ensures Silent(body.events) ==> Silent(Closing(body).events)
    ensures CallerOnlyTimestamped(body.events) ==> CallerOnlyTimestamped(Closing(body).events)
  {
    var es := Closing(body).events;
    assert forall k :: 0 <= k < |body.events| ==> es[k] == body.events[k];
  }

  /** The evidence stage writes no revision of its own; it stops at the first call that throws. */
  lemma {:induction false} LtvRunProperties(names: seq<string>, o: Option<OcspClient>, c: Option<CrlClient>, ok: Event -> bool)
    ensures NoCallerWrite(LtvRun(names, o, c, ok).events)
    ensures Silent(LtvRun(names, o, c, ok).events)
    ensures StopsAtFailure(LtvRun(names, o, c, ok), ok)
    decreases |names|
  {
    if |names| > 0 {
      LtvRunProperties(names[1..], o, c, ok);
      var first := Stage(AddVerification(names[0], o, c), ok);
      var rest := LtvRun(names[1..], o, c, ok);
      NoCallerWriteThen(first, rest);
      StopsAtFailureThen(first, rest, ok);
      SilentThen(first, rest);
    }
  }

  /**
   * The evidence stage succeeds exactly when every addVerification and the
   * merge return; then it made one addVerification per name, in list order,
   * followed by a single merge.
   */
  lemma {:induction false} LtvRunSucceeds(names: seq<string>, o: Option<OcspClient>, c: Option<CrlClient>, ok: Event -> bool)
    ensures LtvRun(names, o, c, ok).outcome == Pass <==>
              (forall i :: 0 <= i < |names| ==> ok(AddVerification(names[i], o, c))) && ok(MergeVerification)
    ensures LtvRun(names, o, c, ok).outcome == Pass ==>
              LtvRun(names, o, c, ok).events == Verifications(names, o, c) + [MergeVerification]
    decreases |names|
  {
    if |names| > 0 {
      LtvRunSucceeds(names[1..], o, c, ok);
      var tail := names[1..];
      assert forall i :: 1 <= i < |names| ==> names[i] == tail[i - 1];
      if ok(AddVerification(names[0], o, c)) && LtvRun(tail, o, c, ok).outcome == Pass {
        assert Verifications(names, o, c) == [AddVerification(names[0], o, c)] + Verifications(tail, o, c);
      }
      if (forall i :: 0 <= i < |names| ==> ok(AddVerification(names[i], o, c))) && ok(MergeVerification) {
        assert forall i :: 0 <= i < |tail| ==> ok(AddVerification(tail[i], o, c)) by {
          forall i | 0 <= i < |tail| ensures ok(AddVerification(tail[i], o, c)) {
            assert tail[i] == names[i + 1];
          }
        }
      }
    }
  }

  lemma VerificationsExtend(names: seq<string>, i: nat, o: Option<OcspClient>, c: Option<CrlClient>)
    requires i < |names|
    ensures Verifications(names[..i + 1], o, c) == Verifications(names[..i], o, c) + [AddVerification(names[i], o, c)]
  {
  }

  /** One step of the evidence stage from the i-th name. */
  lemma LtvRunStep(names: seq<string>, i: nat, o: Option<OcspClient>, c: Option<CrlClient>, ok: Event -> bool)
    requires i < |names|
    ensures LtvRun(names[i..], o, c, ok) == Then(Stage(AddVerification(names[i], o, c), ok), LtvRun(names[i + 1..], o, c, ok))
  {
    assert names[i..][0] == names[i] && names[i..][1..] == names[i + 1..];
  }

  /** Once the first i addVerification calls returned, the stage is their events followed by the rest of it. */
  lemma {:induction false} LtvRunAfter(names: seq<string>, i: nat, o: Option<OcspClient>, c: Option<CrlClient>, ok: Event -> bool)
    requires i <= |names|
    requires forall j :: 0 <= j < i ==> ok(AddVerification(names[j], o, c))
    ensures LtvRun(names, o, c, ok) ==
            Run(Verifications(names[..i], o, c) + LtvRun(names[i..], o, c, ok).events, LtvRun(names[i..], o, c, ok).outcome)
    decreases i
  {
    if i > 0 {
      LtvRunAfter(names, i - 1, o, c, ok);
      LtvRunStep(names, i - 1, o, c, ok);
      VerificationsExtend(names, i - 1, o, c);
    } else {
      assert names[..0] == [] && names[0..] == names;
    }
  }

  // ---------------------------------------------------------------------
  // Temporary storage.

  function TempPrefix(dir: string): string {
    dir + "/" + TEMP_FILE_NAME
  }

  /** The n-th candidate file name: dir + "/tempPdfFile" + n + ".pdf". */
  function TempName(dir: string, n: nat): string {
    TempPrefix(dir) + Decimal(n) + ".pdf"
  }

  /** The counter value a temporary file name was made from, if it is one. */
  function TempIndex(dir: string, path: string): Option<nat> {
    var pre := TempPrefix(dir);
    if |path| >= |pre| + 4 && path[..|pre|] == pre && path[|path| - 4..] == ".pdf"
       && AllDigits(path[|pre|..|path| - 4])
    then Some(ParseDecimal(path[|pre|..|path| - 4]))
    else None
  }

  lemma TempIndexOfTempName(dir: string, n: nat)
    ensures TempIndex(dir, TempName(dir, n)) == Some(n)
  {
    var pre, d := TempPrefix(dir), Decimal(n);
    var path := TempName(dir, n);
    ParseDecimalOfDecimal(n);
    assert path == pre + d + ".pdf";
    assert path[..|pre|] == pre;
    assert path[|path| - 4..] == ".pdf";
    assert path[|pre|..|path| - 4] == d;
  }

  /** Different counter values give different names. */
  lemma TempNameInjective(dir: string, m: nat, n: nat)
    ensures TempName(dir, m) == TempName(dir, n) ==> m == n
  {
    TempIndexOfTempName(dir, m);
    TempIndexOfTempName(dir, n);
  }

  /**
   * A directory that has the first candidate name is skipped like a file: the
   * counter moves on to 2, and the name handed out is not the directory's.
   */
  lemma DirectoryNameSkipped()
    ensures var st := TempStore(Some("D"), {"D", TempName("D", 1)}, {}, 0, {}, None, None, 0);
            && CreateOutput(st).0 == Success(TempFile(TempName("D", 2)))
            && CreateOutput(st).1.increment == 2
  {
    TempNameInjective("D", 1, 2);
    assert TempName("D", 2) != "D" by {
      assert |TempName("D", 2)| > |"D"|;
    }
    assert TempName("D", 2) !in {"D", TempName("D", 1)};
  }

  /** The taken paths that are candidate names beyond the counter value last. */
  function LaterTempFiles(dir: string, taken: set<string>, last: nat): set<string> {
    set f | f in taken && TempIndex(dir, f).Some? && TempIndex(dir, f).value > last
  }

  lemma LaterTempFilesShrink(dir: string, taken: set<string>, last: nat)
    requires TempName(dir, last + 1) in taken
    ensures |LaterTempFiles(dir, taken, last + 1)| < |LaterTempFiles(dir, taken, last)|
  {
    var a, b := LaterTempFiles(dir, taken, last + 1), LaterTempFiles(dir, taken, last);
    var x := TempName(dir, last + 1);
    TempIndexOfTempName(dir, last + 1);
    assert x in b && x !in a;
    var c := a + {x};
    assert b == c + (b - c);
    assert |b| == |c| + |b - c|;
  }

  /**
   * The value the counter stops at when getNextTempFile starts from last:
   * the first value beyond last whose name is not taken, that is, names no
   * existing file or directory (File.exists holds for both). Every value
   * skipped on the way names a taken path.
   */
  function NextFreeIndex(dir: string, taken: set<string>, last: nat): (n: nat)
    ensures n > last
    ensures TempName(dir, n) !in taken
    ensures forall k :: last < k < n ==> TempName(dir, k) in taken
    decreases |LaterTempFiles(dir, taken, last)|
  {
    if TempName(dir, last + 1) !in taken then last + 1
    else
      LaterTempFilesShrink(dir, taken, last);
      NextFreeIndex(dir, taken, last + 1)
  }

  /**
   * The state temporary storage works on: the configured directory, the
   * existing directories and files, the shared counter, the tracked
   * temporary files, the latest file and buffer, and how many buffers exist.
   */
  datatype TempStore = TempStore(
    directory: Option<string>,
    directories: set<string>,
    files: set<string>,
    increment: nat,
    tracked: set<string>,
    latestFile: Option<string>,
    latestBuffer: Option<nat>,
    buffers: nat)

  /** A store in which every existing buffer and tracked file was made by this signer. */
  ghost predicate Consistent(st: TempStore) {
    && (st.latestBuffer.Some? ==> st.latestBuffer.value < st.buffers)
    && (st.latestFile.Some? ==> st.latestFile.value in st.tracked)
  }

  /**
   * createOutputStream: a fresh buffer in memory mode; in directory mode the
   * next temporary file name that no file or directory has, which is
   * tracked and then created as a file, or
   * PATH_IS_NOT_DIRECTORY if the directory does not exist.
   */
  function CreateOutput(st: TempStore): (res: (Result<Stream, Error>, TempStore))
    ensures res.0.Failure? <==> st.directory.Some? && st.directory.value !in st.directories
    ensures res.0.Failure? ==> res.0.error == PathIsNotDirectory(st.directory.value) && res.1 == st
    ensures res.0.Success? && st.directory.None? ==>
              && res.0.value == Buffer(st.buffers)
              && res.1 == st.(latestBuffer := Some(st.buffers), buffers := st.buffers + 1)
    ensures res.0.Success? && st.directory.Some? ==>
              var dir := st.directory.value;
              && res.0.value == TempFile(TempName(dir, res.1.increment))
              && res.1.increment > st.increment
              && res.1.increment == NextFreeIndex(dir, st.files + st.directories, st.increment)
              && TempName(dir, res.1.increment) !in st.files
              && TempName(dir, res.1.increment) !in st.directories
              && res.1 == st.(files := st.files + {TempName(dir, res.1.increment)},
                              increment := res.1.increment,
                              tracked := st.tracked + {TempName(dir, res.1.increment)},
                              latestFile := Some(TempName(dir, res.1.increment)))
    ensures res.0.Success? ==> IsTemp(res.0.value) && SourceOf(res.0.value) == InputOf(res.1)
    ensures Consistent(st) ==> Consistent(res.1)
    ensures res.1.directory == st.directory && res.1.directories == st.directories
    ensures st.tracked <= res.1.tracked && res.1.files - st.files <= res.1.tracked
  {
    match st.directory
    case None =>
      (Success(Buffer(st.buffers)), st.(latestBuffer := Some(st.buffers), buffers := st.buffers + 1))
    case Some(dir) =>
      if dir !in st.directories then (Failure(PathIsNotDirectory(dir)), st)
      else
        var n := NextFreeIndex(dir, st.files + st.directories, st.increment);
        var path := TempName(dir, n);
        (Success(TempFile(path)),
         st.(files := st.files + {path}, increment := n, tracked := st.tracked + {path}, latestFile := Some(path)))
  }

  /** createInputStream: the latest temporary file, or a snapshot of the latest buffer. */
  function InputOf(st: TempStore): Source
    requires st.directory.Some? ==> st.latestFile.Some?
    requires st.directory.None? ==> st.latestBuffer.Some?
  {
    if st.directory.Some? then FromFile(st.latestFile.value) else FromBuffer(st.latestBuffer.value)
  }

  /**
   * deleteTempFiles: every tracked file is gone, every other file is still
   * there, and nothing else changes; the tracked set itself is kept.
   */
  function DeleteTracked(st: TempStore): (st': TempStore)
    ensures st'.files !! st'.tracked && st'.files <= st.files
    ensures st.files - st.tracked <= st'.files
    ensures st' == st.(files := st'.files)
  {
    st.(files := st.files - st.tracked)
  }

  /** The events of deleteTempFiles: one deletion per tracked file, in some order. */
  ghost predicate DeletionsOf(ds: seq<Event>, paths: set<string>) {
    && |ds| == |paths|
    && (forall i :: 0 <= i < |ds| ==> ds[i].DeleteFile? && ds[i].path in paths)
    && (forall p :: p in paths ==> DeleteFile(p) in ds)
  }

  // ---------------------------------------------------------------------
  // Revocation clients.

  /**
   * createRevocationClients: DEFAULT_CLIENTS_CANNOT_BE_CREATED exactly when
   * clients are required, neither client is set, and the signing
   * certificate names no OCSP and no CRL service (an empty chain makes
   * chain[0] itself fail); otherwise missing clients get their defaults and
   * a client the caller set is kept.
   */
  function ResolveClients(ocsp: Option<OcspClient>, crl: Option<CrlClient>, chain: seq<Certificate>,
                          required: bool): (r: Result<(OcspClient, CrlClient), Error>)
    ensures r.Failure? <==>
              required && ocsp.None? && crl.None? &&
              (|chain| == 0 || (chain[0].ocspUrl.None? && chain[0].crlUrl.None?))
    ensures r.Failure? ==> r.error == (if |chain| == 0 then ChainIndexOutOfBounds else DefaultClientsCannotBeCreated)
    ensures r.Success? ==> (ocsp.Some? ==> r.value.0 == ocsp.value) && (ocsp.None? ==> r.value.0 == DefaultOcsp)
    ensures r.Success? ==> (crl.Some? ==> r.value.1 == crl.value) && (crl.None? ==> r.value.1 == DefaultCrl(chain))
    ensures !required ==> r.Success?
  {
    if crl.None? && ocsp.None? && required && |chain| == 0 then Failure(ChainIndexOutOfBounds)
    else if crl.None? && ocsp.None? && required && chain[0].ocspUrl.None? && chain[0].crlUrl.None? then
      Failure(DefaultClientsCannotBeCreated)
    else
      Success((if ocsp.Some? then ocsp.value else DefaultOcsp,
               if crl.Some? then crl.value else DefaultCrl(chain)))
  }

  // ---------------------------------------------------------------------
  // The profiles, from the state after client resolution. Each returns the
  // run before deleteTempFiles and the store that deleteTempFiles sees.

  /** Baseline-B and Baseline-T: a detached signature written straight to the signer's stream. */
  function BaselineT(field: string, out: Stream, chain: seq<Certificate>, tsa: Option<TsaClient>,
                     size: int, ok: Event -> bool): Run
  {
    SignRun(field, out, chain, tsa, size, ok)
  }

  /**
   * Baseline-LT: the signature goes to a substituted temporary stream; the
   * result is reopened in append mode with a writer on the caller's stream,
   * and the evidence for the new signature is added there.
   */
  function BaselineLT(st: TempStore, field: string, chain: seq<Certificate>, tsa: Option<TsaClient>,
                      size: int, o: OcspClient, c: CrlClient, ok: Event -> bool): (Run, TempStore)
  {
    var (a, st1) := CreateOutput(st);
    match a
    case Failure(e) => (Run([], Fail(e)), st1)
    case Success(t) =>
      (Then(SignRun(field, t, chain, tsa, size, ok),
            Then(Stage(OpenAppend(SourceOf(t), Caller), ok),
                 Closing(LtvRun([field], Some(o), Some(c), ok)))),
       st1)
  }

  /**
   * Baseline-LTA: as LT, but the evidence goes to a second temporary
   * stream and a document timestamp writes the caller's stream.
   */
  function BaselineLTA(st: TempStore, field: string, chain: seq<Certificate>, tsa: Option<TsaClient>,
                       size: int, tsName: Option<string>, o: OcspClient, c: CrlClient,
                       ok: Event -> bool): (Run, TempStore)
  {
    var (a1, st1) := CreateOutput(st);
    match a1
    case Failure(e) => (Run([], Fail(e)), st1)
    case Success(t1) => LtaOnSubstitute(st1, t1, field, chain, tsa, size, tsName, o, c, ok)
  }

  /**
   * Baseline-LTA from the substituted temporary stream t1 on, that is, the
   * try block after substituteOutputStream: sign onto t1, then the rest.
   */
  function LtaOnSubstitute(st: TempStore, t1: Stream, field: string, chain: seq<Certificate>, tsa: Option<TsaClient>,
                           size: int, tsName: Option<string>, o: OcspClient, c: CrlClient,
                           ok: Event -> bool): (Run, TempStore)
  {
    var sign := SignRun(field, t1, chain, tsa, size, ok);
    if sign.outcome.Fail? then (sign, st)
    else
      var (rest, st2) := LtaAfterSigning(st, SourceOf(t1), field, tsa, tsName, o, c, ok);
      (Then(sign, rest), st2)
  }

  /**
   * Baseline-LTA once the signature is written: the signed document src is
   * read back, and only then is the second temporary stream allocated (the
   * PdfReader argument is evaluated before createOutputStream); the
   * document is reopened on that stream for the evidence, and the document
   * timestamp writes the caller's stream.
   */
  function LtaAfterSigning(st: TempStore, src: Source, field: string, tsa: Option<TsaClient>, tsName: Option<string>,
                           o: OcspClient, c: CrlClient, ok: Event -> bool): (Run, TempStore)
  {
    var read := Stage(ReadDocument(src), ok);
    var (a, st1) := CreateOutput(st);
    if read.outcome.Fail? then (read, st)
    else
      match a
      case Failure(e) => (Then(read, Run([], Fail(e))), st1)
      case Success(t) =>
        (Then(read, Then(Stage(OpenAppend(src, t), ok),
                         Closing(Then(LtvRun([field], Some(o), Some(c), ok),
                                      Stage(Timestamp(Caller, tsa, tsName, st1.latestBuffer, st1.latestFile), ok))))),
         st1)
  }

  /** The part of prolongSignatures inside the document: signature check, evidence, timestamp. */
  function ProlongBody(names: seq<string>, o: OcspClient, c: CrlClient, tsa: Option<TsaClient>,
                       tsName: Option<string>, st: TempStore, ok: Event -> bool): Run
  {
    if |names| == 0 then Run([], Fail(NoSignaturesToProlong))
    else Then(LtvRun(names, Some(o), Some(c), ok),
              if tsa.Some? then Stage(Timestamp(Caller, tsa, tsName, st.latestBuffer, st.latestFile), ok)
              else Done)
  }

  /**
   * prolongSignatures: the document is written to the caller's stream when
   * there is no TSA client, otherwise to a temporary stream from which the
   * timestamp writes the caller's stream. The clients are resolved as not
   * required, with an empty chain, only once a signature was found.
   */
  function Prolong(st: TempStore, names: seq<string>, ocsp: Option<OcspClient>, crl: Option<CrlClient>,
                   tsa: Option<TsaClient>, tsName: Option<string>, ok: Event -> bool): (Run, TempStore)
  {
    var (a, st1) := if tsa.None? then (Success(Caller), st) else CreateOutput(st);
    match a
    case Failure(e) => (Run([], Fail(e)), st1)
    case Success(out) =>
      var clients := ResolveClients(ocsp, crl, [], false).value;
      (Then(Stage(OpenAppend(CallerDocument, out), ok),
            Closing(ProlongBody(names, clients.0, clients.1, tsa, tsName, st1, ok))),
       st1)
  }

  /** Whether prolongSignatures got as far as resolving the clients. */
  predicate ProlongResolves(st: TempStore, names: seq<string>, tsa: Option<TsaClient>, ok: Event -> bool) {
    var (a, _) := if tsa.None? then (Success(Caller), st) else CreateOutput(st);
    a.Success? && ok(OpenAppend(CallerDocument, a.value)) && |names| > 0
  }

  // ---------------------------------------------------------------------
  // What the profiles guarantee.

  /** Baseline-B/T write only the signer's own stream, once. */
  lemma BaselineTWritesOnce(field: string, out: Stream, chain: seq<Certificate>, tsa: Option<TsaClient>,
                            size: int, ok: Event -> bool)
    ensures var r := BaselineT(field, out, chain, tsa, size, ok);
            && r.events == [SignDetached(field, out, chain, tsa, size), CloseStream(out)]
            && (r.outcome == Pass <==> ok(SignDetached(field, out, chain, tsa, size)))
            && CallerWrittenLast(r.events) && StopsAtFailure(r, ok)
  {
  }

  /**
   * In Baseline-LT the caller's stream is written only by the append-mode
   * reopen of the signed temporary document, on every run, failing or not,
   * and no revision is started after it; a failing stage ends the run with
   * only clean-up after it.
   */
  lemma BaselineLTWritesCallerLast(st: TempStore, field: string, chain: seq<Certificate>, tsa: Option<TsaClient>,
                                   size: int, o: OcspClient, c: CrlClient, ok: Event -> bool)
    ensures CallerWrittenLast(BaselineLT(st, field, chain, tsa, size, o, c, ok).0.events)
    ensures CreateOutput(st).0.Success? ==>
              CallerOnlyBy(BaselineLT(st, field, chain, tsa, size, o, c, ok).0.events,
                           OpenAppend(SourceOf(CreateOutput(st).0.value), Caller))
    ensures StopsAtFailure(BaselineLT(st, field, chain, tsa, size, o, c, ok).0, ok)
  {
    var (a, st1) := CreateOutput(st);
    if a.Success? {
      var t := a.value;
      var sign := SignRun(field, t, chain, tsa, size, ok);
      var ltv := LtvRun([field], Some(o), Some(c), ok);
      var open := Stage(OpenAppend(SourceOf(t), Caller), ok);
      LtvRunProperties([field], Some(o), Some(c), ok);
      StopsAtFailureClosing(ltv, ok);
      StopsAtFailureThen(open, Closing(ltv), ok);
      StopsAtFailureThen(sign, Then(open, Closing(ltv)), ok);
      ClosingKeepsWrites(ltv);
      SilentAfterCallerLast(open, Closing(ltv));
      var inner := Then(open, Closing(ltv));
      CallerWrittenLastThen(sign, inner);
      CallerOnlyByThenSilent(open, Closing(ltv), OpenAppend(SourceOf(t), Caller));
      CallerOnlyByAfterPrefix(sign, inner, OpenAppend(SourceOf(t), Caller));
    }
  }

  /** On success, Baseline-LT is exactly these six steps. */
  lemma BaselineLTOnSuccess(st: TempStore, field: string, chain: seq<Certificate>, tsa: Option<TsaClient>,
                            size: int, o: OcspClient, c: CrlClient, ok: Event -> bool)
    requires BaselineLT(st, field, chain, tsa, size, o, c, ok).0.outcome == Pass
    ensures CreateOutput(st).0.Success?
    ensures var t := CreateOutput(st).0.value;
            BaselineLT(st, field, chain, tsa, size, o, c, ok).0.events ==
              [SignDetached(field, t, chain, tsa, size), CloseStream(t),
               OpenAppend(SourceOf(t), Caller),
               AddVerification(field, Some(o), Some(c)), MergeVerification,
               CloseDocument]
  {
    LtvRunSucceeds([field], Some(o), Some(c), ok);
  }

  /**
   * In Baseline-LTA the evidence stage writes a second temporary stream and
   * only the document timestamp writes the caller's stream, on every run,
   * failing or not.
   */
  lemma BaselineLTAWritesCallerLast(st: TempStore, field: string, chain: seq<Certificate>, tsa: Option<TsaClient>,
                                    size: int, tsName: Option<string>, o: OcspClient, c: CrlClient,
                                    ok: Event -> bool)
    ensures CallerWrittenLast(BaselineLTA(st, field, chain, tsa, size, tsName, o, c, ok).0.events)
    ensures CallerOnlyTimestamped(BaselineLTA(st, field, chain, tsa, size, tsName, o, c, ok).0.events)
    ensures StopsAtFailure(BaselineLTA(st, field, chain, tsa, size, tsName, o, c, ok).0, ok)
  {
    var (a1, st1) := CreateOutput(st);
    if a1.Success? {
      LtaOnSubstituteWritesCallerLast(st1, a1.value, field, chain, tsa, size, tsName, o, c, ok);
    }
  }

  /** Baseline-LTA from the substituted stream t1 on: the same guarantees. */
  lemma LtaOnSubstituteWritesCallerLast(st: TempStore, t1: Stream, field: string, chain: seq<Certificate>,
                                        tsa: Option<TsaClient>, size: int, tsName: Option<string>,
                                        o: OcspClient, c: CrlClient, ok: Event -> bool)
    requires t1 != Caller
    ensures CallerWrittenLast(LtaOnSubstitute(st, t1, field, chain, tsa, size, tsName, o, c, ok).0.events)
    ensures CallerOnlyTimestamped(LtaOnSubstitute(st, t1, field, chain, tsa, size, tsName, o, c, ok).0.events)
    ensures StopsAtFailure(LtaOnSubstitute(st, t1, field, chain, tsa, size, tsName, o, c, ok).0, ok)
  {
    var sign := SignRun(field, t1, chain, tsa, size, ok);
    if sign.outcome.Pass? {
      var read := Stage(ReadDocument(SourceOf(t1)), ok);
      var (a2, st2) := CreateOutput(st);
      if read.outcome.Pass? {
        var rest: Run;
        if a2.Success? {
          var ltv := LtvRun([field], Some(o), Some(c), ok);
          var ts := Stage(Timestamp(Caller, tsa, tsName, st2.latestBuffer, st2.latestFile), ok);
          var open := Stage(OpenAppend(SourceOf(t1), a2.value), ok);
          LtvRunProperties([field], Some(o), Some(c), ok);
          assert NoCallerWrite(open.events);
          EvidenceThenTimestamp(open, ltv, ts, ok);
          rest := Then(open, Closing(Then(ltv, ts)));
        } else {
          rest := Run([], Fail(a2.error));
        }
        assert NoCallerWrite(read.events);
        PrefixThen(read, rest, ok);
        PrefixThen(sign, Then(read, rest), ok);
      }
    }
  }

  /** A prefix that leaves the caller's stream alone keeps what the rest of the run guarantees. */
  lemma PrefixThen(a: Run, r: Run, ok: Event -> bool)
    requires NoCallerWrite(a.events) && StopsAtFailure(a, ok)
    requires CallerWrittenLast(r.events) && CallerOnlyTimestamped(r.events) && StopsAtFailure(r, ok)
    ensures CallerWrittenLast(Then(a, r).events) && CallerOnlyTimestamped(Then(a, r).events)
    ensures StopsAtFailure(Then(a, r), ok)
  {
    StopsAtFailureThen(a, r, ok);
    CallerWrittenLastThen(a, r);
    CallerOnlyTimestampedThen(a, r);
  }

  /** Opening and evidence leave the caller's stream alone; a closing timestamp writes it last. */
  lemma EvidenceThenTimestamp(open: Run, ltv: Run, ts: Run, ok: Event -> bool)
    requires StopsAtFailure(open, ok) && StopsAtFailure(ltv, ok) && StopsAtFailure(ts, ok)
    requires NoCallerWrite(open.events) && NoCallerWrite(ltv.events)
    requires CallerWrittenLast(ts.events) && CallerOnlyTimestamped(ts.events)
    ensures var r := Then(open, Closing(Then(ltv, ts)));
            CallerWrittenLast(r.events) && CallerOnlyTimestamped(r.events) && StopsAtFailure(r, ok)
  {
    PrefixThen(ltv, ts, ok);
    StopsAtFailureClosing(Then(ltv, ts), ok);
    ClosingKeepsWrites(Then(ltv, ts));
    PrefixThen(open, Closing(Then(ltv, ts)), ok);
  }

  /** On success, Baseline-LTA is exactly these steps. */
  lemma BaselineLTAOnSuccess(st: TempStore, field: string, chain: seq<Certificate>, tsa: Option<TsaClient>,
                             size: int, tsName: Option<string>, o: OcspClient, c: CrlClient, ok: Event -> bool)
    requires BaselineLTA(st, field, chain, tsa, size, tsName, o, c, ok).0.outcome == Pass
    ensures CreateOutput(st).0.Success? && CreateOutput(CreateOutput(st).1).0.Success?
    ensures var t1 := CreateOutput(st).0.value;
            var (a2, st2) := CreateOutput(CreateOutput(st).1);
            && t1 != a2.value
            && BaselineLTA(st, field, chain, tsa, size, tsName, o, c, ok).0.events ==
                 [SignDetached(field, t1, chain, tsa, size), CloseStream(t1),
                  ReadDocument(SourceOf(t1)), OpenAppend(SourceOf(t1), a2.value),
                  AddVerification(field, Some(o), Some(c)), MergeVerification,
                  Timestamp(Caller, tsa, tsName, st2.latestBuffer, st2.latestFile),
                  CloseDocument]
  {
    LtvRunSucceeds([field], Some(o), Some(c), ok);
    var (a1, st1) := CreateOutput(st);
    var (a2, st2) := CreateOutput(st1);
    if st.directory.Some? {
      assert a1.value.path in st1.files;
    }
  }

  /**
   * prolongSignatures writes the caller's stream last as well: directly
   * from the append-mode document without a TSA client, and only through
   * the timestamp with one.
   */
  lemma ProlongWritesCallerLast(st: TempStore, names: seq<string>, ocsp: Option<OcspClient>, crl: Option<CrlClient>,
                                tsa: Option<TsaClient>, tsName: Option<string>, ok: Event -> bool)
    ensures CallerWrittenLast(Prolong(st, names, ocsp, crl, tsa, tsName, ok).0.events)
    ensures tsa.None? ==> CallerOnlyBy(Prolong(st, names, ocsp, crl, tsa, tsName, ok).0.events,
                                       OpenAppend(CallerDocument, Caller))
    ensures tsa.Some? ==> CallerOnlyTimestamped(Prolong(st, names, ocsp, crl, tsa, tsName, ok).0.events)
    ensures StopsAtFailure(Prolong(st, names, ocsp, crl, tsa, tsName, ok).0, ok)
  {
    var (a, st1) := if tsa.None? then (Success(Caller), st) else CreateOutput(st);
    if a.Success? {
      var clients := ResolveClients(ocsp, crl, [], false).value;
      var body := ProlongBody(names, clients.0, clients.1, tsa, tsName, st1, ok);
      var open := Stage(OpenAppend(CallerDocument, a.value), ok);
      if |names| > 0 {
        var ltv := LtvRun(names, Some(clients.0), Some(clients.1), ok);
        var ts := if tsa.Some? then Stage(Timestamp(Caller, tsa, tsName, st1.latestBuffer, st1.latestFile), ok) else Done;
        LtvRunProperties(names, Some(clients.0), Some(clients.1), ok);
        StopsAtFailureThen(ltv, ts, ok);
        if tsa.Some? {
          CallerWrittenLastThen(ltv, ts);
          CallerOnlyTimestampedThen(ltv, ts);
        } else {
          SilentThen(ltv, ts);
        }
      }
      StopsAtFailureClosing(body, ok);
      StopsAtFailureThen(open, Closing(body), ok);
      ClosingKeepsWrites(body);
      if tsa.Some? {
        CallerWrittenLastThen(open, Closing(body));
        CallerOnlyTimestampedThen(open, Closing(body));
      } else {
        SilentAfterCallerLast(open, Closing(body));
        CallerOnlyByThenSilent(open, Closing(body), OpenAppend(CallerDocument, Caller));
      }
    }
  }

  /**
   * On success, prolongSignatures found a signature and is exactly: the
   * append-mode open of the caller's document (on the caller's stream
   * without a TSA client, on a temporary stream with one), one
   * addVerification per signature in order, the merge, the timestamp to
   * the caller's stream when there is a TSA client, and the close.
   */
  lemma ProlongOnSuccess(st: TempStore, names: seq<string>, ocsp: Option<OcspClient>, crl: Option<CrlClient>,
                         tsa: Option<TsaClient>, tsName: Option<string>, ok: Event -> bool)
    requires Prolong(st, names, ocsp, crl, tsa, tsName, ok).0.outcome == Pass
    ensures |names| > 0
    ensures tsa.Some? ==> CreateOutput(st).0.Success? && IsTemp(CreateOutput(st).0.value)
    ensures var p := ResolveClients(ocsp, crl, [], false).value;
            var evidence := Verifications(names, Some(p.0), Some(p.1)) + [MergeVerification];
            var es := Prolong(st, names, ocsp, crl, tsa, tsName, ok).0.events;
            if tsa.None? then
              es == [OpenAppend(CallerDocument, Caller)] + evidence + [CloseDocument]
            else
              var (a, st1) := CreateOutput(st);
              es == [OpenAppend(CallerDocument, a.value)] + evidence
                    + [Timestamp(Caller, tsa, tsName, st1.latestBuffer, st1.latestFile), CloseDocument]
  {
    var p := ResolveClients(ocsp, crl, [], false).value;
    LtvRunSucceeds(names, Some(p.0), Some(p.1), ok);
  }

  /** With no signature in the document, prolongSignatures fails before it resolves any client. */
  lemma ProlongWithoutSignatures(st: TempStore, ocsp: Option<OcspClient>, crl: Option<CrlClient>,
                                 tsa: Option<TsaClient>, tsName: Option<string>, ok: Event -> bool)
    requires tsa.Some? ==> (st.directory.None? || st.directory.value in st.directories)
    ensures !ProlongResolves(st, [], tsa, ok)
    ensures var r := Prolong(st, [], ocsp, crl, tsa, tsName, ok).0;
            r.outcome == NoSignaturesToProlongUnlessOpenFails(st, tsa, ok)
            && forall i :: 0 <= i < |r.events| ==> !r.events[i].AddVerification? && !r.events[i].Timestamp?
  {
  }

  /** The outcome of prolonging a document without signatures: the open can still throw first. */
  function NoSignaturesToProlongUnlessOpenFails(st: TempStore, tsa: Option<TsaClient>, ok: Event -> bool): Outcome<Error>
    requires tsa.Some? ==> (st.directory.None? || st.directory.value in st.directories)
  {
    var out := if tsa.None? then Caller else CreateOutput(st).0.value;
    if ok(OpenAppend(CallerDocument, out)) then Fail(NoSignaturesToProlong)
    else Fail(StageFailed(OpenAppend(CallerDocument, out)))
  }

  /**
   * prolongSignatures never deletes its temporary file: in directory mode
   * with a TSA client the file it created is still there afterwards. On a
   * run that reaches the document timestamp this rests on the model's
   * Timestamp event leaving the files alone; PdfSigner, which receives
   * tempFile there, is not part of this model.
   */
  lemma ProlongLeavesTempFile(st: TempStore, names: seq<string>, ocsp: Option<OcspClient>, crl: Option<CrlClient>,
                              tsa: TsaClient, tsName: Option<string>, ok: Event -> bool)
    requires st.directory.Some? && st.directory.value in st.directories
    ensures var st1 := Prolong(st, names, ocsp, crl, Some(tsa), tsName, ok).1;
            var p := TempName(st.directory.value, st1.increment);
            p !in st.files && p in st1.files && p in st1.tracked
  {
  }

  /**
   * The run the source settles on its own: in directory mode with a TSA
   * client, a document without signatures makes prolongSignatures throw
   * NO_SIGNATURES_TO_PROLONG (unless the open throws first) after
   * createOutputStream created its file; no timestamp is attempted, nothing
   * deletes the file, and it is still there.
   */
  lemma ProlongWithoutSignaturesLeavesTempFile(st: TempStore, ocsp: Option<OcspClient>, crl: Option<CrlClient>,
                                               tsa: TsaClient, tsName: Option<string>, ok: Event -> bool)
    requires st.directory.Some? && st.directory.value in st.directories
    ensures var (r, st1) := Prolong(st, [], ocsp, crl, Some(tsa), tsName, ok);
            var p := TempName(st.directory.value, st1.increment);
            && (ok(OpenAppend(CallerDocument, TempFile(p))) ==> r.outcome == Fail(NoSignaturesToProlong))
            && (!ok(OpenAppend(CallerDocument, TempFile(p))) ==> r.outcome == Fail(StageFailed(OpenAppend(CallerDocument, TempFile(p)))))
            && (forall i :: 0 <= i < |r.events| ==> !r.events[i].Timestamp? && !r.events[i].DeleteFile?)
            && p !in st.files && p in st1.files && p in st1.tracked
  {
  }

  /** prolongSignatures with deleteTempFiles in finally, as the LT and LTA profiles do. */
  function ProlongAndDeleteTempFiles(st: TempStore, names: seq<string>, ocsp: Option<OcspClient>, crl: Option<CrlClient>,
                                     tsa: Option<TsaClient>, tsName: Option<string>, ok: Event -> bool): (Run, TempStore)
  {
    var (run, st1) := Prolong(st, names, ocsp, crl, tsa, tsName, ok);
    (run, DeleteTracked(st1))
  }

  /** Baseline-LT leaves no file behind that was not there before it started. */
  lemma BaselineLTLeavesNoNewFiles(st: TempStore, field: string, chain: seq<Certificate>, tsa: Option<TsaClient>,
                                   size: int, o: OcspClient, c: CrlClient, ok: Event -> bool)
    ensures DeleteTracked(BaselineLT(st, field, chain, tsa, size, o, c, ok).1).files <= st.files
  {
  }

  /** Baseline-LTA leaves no file behind either, although it allocates twice. */
  lemma BaselineLTALeavesNoNewFiles(st: TempStore, field: string, chain: seq<Certificate>, tsa: Option<TsaClient>,
                                    size: int, tsName: Option<string>, o: OcspClient, c: CrlClient, ok: Event -> bool)
    ensures DeleteTracked(BaselineLTA(st, field, chain, tsa, size, tsName, o, c, ok).1).files <= st.files
  {
    var (a1, st1) := CreateOutput(st);
    if a1.Success? && SignRun(field, a1.value, chain, tsa, size, ok).outcome.Pass? {
      var (a2, st2) := CreateOutput(st1);
      assert st2.files - st.files <= (st2.files - st1.files) + (st1.files - st.files);
    }
  }

  /** With the clean-up in place, prolonging leaves no file behind. */
  lemma ProlongAndDeleteTempFilesLeavesNoNewFiles(st: TempStore, names: seq<string>, ocsp: Option<OcspClient>,
                                                  crl: Option<CrlClient>, tsa: Option<TsaClient>,
                                                  tsName: Option<string>, ok: Event -> bool)
    ensures DeleteTracked(Prolong(st, names, ocsp, crl, tsa, tsName, ok).1).files <= st.files
    ensures ProlongAndDeleteTempFiles(st, names, ocsp, crl, tsa, tsName, ok).1.files <= st.files
  {
  }
}
