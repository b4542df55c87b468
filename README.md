# PAdES signing orchestration in Dafny

This project models the core of iText's PAdES signer and several small
contracts around it, and proves properties of the model.

- **PdfPadesSigner** signs a PDF with the PAdES Baseline-B, T, LT and LTA
  profiles and prolongs existing signatures. It chains rewrite stages
  through temporary storage: in-memory buffers, or uniquely named files in
  a configured directory. It resolves the OCSP and CRL clients that the
  long-term-validation (LTV) stage needs, and it deletes its temporary
  files when a multi-stage profile ends.
- **AddIndexStrategy** renames a duplicate form field to the first field's
  name plus a separator plus an index. The index is counted per name after
  stripping any separator-and-digits suffix.
- **MAC integrity protection** is gated by the provider, the PDF version
  and the encryption algorithm, as its tests pin it down.
- **StringSplitUtil.splitKeepTrailingWhiteSpace** splits on one character
  and keeps every empty part.
- **The copyright-since placeholder** is filled with the earliest since-year
  among the product events.

Layout, one module per file:

- `wrappers.dfy`: Option, Result and Outcome.
- `numerals.dfy`: decimal text of naturals and its parse.
- `pades_model.dfy`: the signer's value model.
  - Streams, stage events and errors.
  - Runs: the events of a sequence of stages plus how it ended.
  - The temporary-store allocator and revocation-client resolution.
  - Each profile as a function of the state it starts from.
- `pades_signer.dfy`: the `PdfPadesSigner` class. Each method is proved
  to follow the function of `pades_model.dfy` that specifies it.
- `add_index_strategy.dfy`, `mac_integrity.dfy`, `string_split.dfy` and
  `copyright_since.dfy`: the other components.

How the signer is modelled:

- Calls into signing, validation, timestamping, reader and writer code
  become **events**. The parameter `ok: Event -> bool` says whether each
  such call returns or throws.
- A thrown exception stops the run. try-with-resources and finally blocks
  still add their clean-up events.
- The caller's own output stream is `Caller`. Every other stream is a
  temporary one of this signer.
- The shared static counter and the file system are objects of their own
  (`TempCounter`, `FileSystem`). The lock around the counter is modelled
  as sequential execution.

Behaviour of the code that the model follows:

- prolongSignatures resolves clients with an empty chain and
  `clientsRequired = false`. So defaults are always created and it never
  fails for lack of clients (PdfPadesSigner.java:260).
- With no TSA client, prolongSignatures opens the appending writer on the
  caller's stream before it looks for signatures. A document without
  signatures is therefore opened and closed on the caller's stream before
  NO_SIGNATURES_TO_PROLONG is thrown. What closing writes is outside the
  model.
- Baseline-LT reopens the signed document with a writer on the caller's
  original stream, not on a new temporary one.
- prolongSignatures does not delete its temporary file (see Findings).

## Model

| member | source | states |
|---|---|---|
| PadesModel.NextFreeIndex | sign/src/main/java/com/itextpdf/signatures/PdfPadesSigner.java:435-441 | The counter value getNextTempFile stops at is beyond the start. Neither a file nor a directory has its name, since File.exists holds for both. Every value skipped on the way names an existing file or directory. |
| PadesModel.TempIndexOfTempName | sign/src/main/java/com/itextpdf/signatures/PdfPadesSigner.java:438 | A temporary name parses back to the counter value it was made from (dir + "/tempPdfFile" + n + ".pdf"). |
| PadesModel.TempNameInjective | sign/src/main/java/com/itextpdf/signatures/PdfPadesSigner.java:438 | Different counter values give different file names. |
| PadesModel.DirectoryNameSkipped | sign/src/main/java/com/itextpdf/signatures/PdfPadesSigner.java:436-440 | With "D" configured, the counter at 0 and a directory named D/tempPdfFile1.pdf, the file handed out is D/tempPdfFile2.pdf and the counter ends at 2. |
| PadesModel.CreateOutput | sign/src/main/java/com/itextpdf/signatures/PdfPadesSigner.java:415-443 | Fails with PATH_IS_NOT_DIRECTORY, naming the path, exactly when a directory is configured that does not exist; the state is then unchanged. Memory mode hands out a fresh buffer and makes it tempOutputStream. Directory mode hands out a name that no existing file or directory has. That file is tracked, created and made tempFile, and the shared counter strictly increases. The stream is never the caller's. Reading back gives that stream. New files are always tracked. |
| PadesModel.DeleteTracked | sign/src/main/java/com/itextpdf/signatures/PdfPadesSigner.java:409-413 | After deleteTempFiles no tracked file exists, every untracked file is still there, and the rest of the temporary-storage state is unchanged. |
| PadesModel.ResolveClients | sign/src/main/java/com/itextpdf/signatures/PdfPadesSigner.java:445-459 | DEFAULT_CLIENTS_CANNOT_BE_CREATED exactly when clients are required, neither client is set, and the signing certificate has no OCSP or CRL URL. An empty chain fails on chain[0] instead. Otherwise a set client is kept, and a missing one gets OcspClientBouncyCastle(null) or CrlClientOnline(chain). Not-required never fails. |
| PadesModel.LtvRunProperties | sign/src/main/java/com/itextpdf/signatures/PdfPadesSigner.java:392-401 | The evidence stage starts no revision of its own. After a call that throws, only clean-up follows and the run ends with that exception. |
| PadesModel.LtvRunSucceeds | sign/src/main/java/com/itextpdf/signatures/PdfPadesSigner.java:392-401 | The evidence stage succeeds if and only if every addVerification and the merge return. Then its events are one addVerification per name in list order, followed by one merge. |
| PadesModel.BaselineTWritesOnce | sign/src/main/java/com/itextpdf/signatures/PdfPadesSigner.java:381-390 | Baseline-B and T make one detached signature on the signer's stream and always close that stream afterwards. They succeed if and only if signing returns. |
| PadesModel.BaselineLTWritesCallerLast | sign/src/main/java/com/itextpdf/signatures/PdfPadesSigner.java:159-173 | In Baseline-LT, on every run, failing or not, the only write to the caller's stream is the append-mode reopen of the signed temporary document, and nothing starts writing after it. After a failing call only clean-up follows. |
| PadesModel.BaselineLTOnSuccess | sign/src/main/java/com/itextpdf/signatures/PdfPadesSigner.java:159-173 | A successful Baseline-LT is exactly: sign to a temporary stream, close it, reopen it in append mode on the caller's stream, add evidence for the new field, merge, close the document. |
| PadesModel.BaselineLTAWritesCallerLast | sign/src/main/java/com/itextpdf/signatures/PdfPadesSigner.java:204-219 | In Baseline-LTA, on every run, failing or not, only the document timestamp writes the caller's stream, and nothing starts writing after it. After a failing call only clean-up follows. |
| PadesModel.LtaOnSubstituteWritesCallerLast | sign/src/main/java/com/itextpdf/signatures/PdfPadesSigner.java:207-215 | Once the signer writes a temporary stream, the rest of Baseline-LTA writes the caller's stream only through the timestamp, on failing runs as well, writes nothing after it, and stops at the first failing call. |
| PadesModel.EvidenceThenTimestamp | sign/src/main/java/com/itextpdf/signatures/PdfPadesSigner.java:207-215 | An append-mode open and evidence that leave the caller's stream alone, followed by a timestamp that is the only writer of the caller's stream, write the caller's stream last and only through the timestamp. |
| PadesModel.PrefixThen | sign/src/main/java/com/itextpdf/signatures/PdfPadesSigner.java:207-213 | Stages before the reopen that leave the caller's stream alone (signing, reading back) keep the rest's guarantees: the caller's stream is written last, only by the timestamp, and a failure ends the run. |
| PadesModel.BaselineLTAOnSuccess | sign/src/main/java/com/itextpdf/signatures/PdfPadesSigner.java:204-219 | A successful Baseline-LTA uses two distinct temporary streams. Its events are exactly: sign, close, read the signed document back, append-mode reopen on the second stream, evidence, merge, timestamp to the caller's stream, close. |
| PadesModel.ProlongWritesCallerLast | sign/src/main/java/com/itextpdf/signatures/PdfPadesSigner.java:250-266 | prolongSignatures writes the caller's stream last. Without a TSA client the only write to it is the append-mode open of the caller's document. With one, the only writes to it are document timestamps, so the open goes elsewhere. After a failing call only clean-up follows. |
| PadesModel.ProlongOnSuccess | sign/src/main/java/com/itextpdf/signatures/PdfPadesSigner.java:250-266 | A successful prolongSignatures found a signature. Its events are exactly the open of the caller's document, one addVerification per signature in order, the merge, then the close. The open goes to the caller's stream without a TSA client. With one, the open goes to a temporary stream and a timestamp to the caller's stream comes before the close. |
| PadesModel.ProlongWithoutSignatures | sign/src/main/java/com/itextpdf/signatures/PdfPadesSigner.java:252-259 | Without signatures, and with an existing temporary directory whenever a TSA client is given, prolongSignatures fails with NO_SIGNATURES_TO_PROLONG. The exception is the open's own if opening fails first. It resolves no client and adds no evidence or timestamp. |
| PadesModel.ProlongLeavesTempFile | sign/src/main/java/com/itextpdf/signatures/PdfPadesSigner.java:250-266 | As written, in directory mode with a TSA client, the temporary file that prolongSignatures created still exists afterwards in the model, whatever the outcome. On a run that reaches the timestamp this rests on an assumption, listed under Left out. |
| PadesModel.ProlongWithoutSignaturesLeavesTempFile | sign/src/main/java/com/itextpdf/signatures/PdfPadesSigner.java:250-259 | As written, in directory mode with a TSA client and a document without signatures, the open throws or NO_SIGNATURES_TO_PROLONG is thrown, no timestamp or deletion is attempted, and the file createOutputStream made still exists. |
| PadesModel.BaselineLTLeavesNoNewFiles | sign/src/main/java/com/itextpdf/signatures/PdfPadesSigner.java:159-173 | Baseline-LT leaves no file that did not exist before it started. |
| PadesModel.BaselineLTALeavesNoNewFiles | sign/src/main/java/com/itextpdf/signatures/PdfPadesSigner.java:204-219 | Baseline-LTA leaves no file behind, although it allocates twice. |
| PadesModel.ProlongAndDeleteTempFilesLeavesNoNewFiles | sign/src/main/java/com/itextpdf/signatures/PdfPadesSigner.java:250-266 | With deleteTempFiles in finally, prolonging leaves no file that did not exist before it started. |
| PadesSigner.PdfPadesSigner.constructor | sign/src/main/java/com/itextpdf/signatures/PdfPadesSigner.java:31-80 | A new signer has no clients, estimated size 0, no timestamp name, memory mode, no temporary storage and no stages run. |
| PadesSigner.PdfPadesSigner.SetTemporaryDirectoryPath | sign/src/main/java/com/itextpdf/signatures/PdfPadesSigner.java:291-294 | Sets the directory that switches on file-backed storage. |
| PadesSigner.PdfPadesSigner.SetTimestampSignatureName | sign/src/main/java/com/itextpdf/signatures/PdfPadesSigner.java:308-311 | Sets the timestamp signature name. |
| PadesSigner.PdfPadesSigner.SetEstimatedSize | sign/src/main/java/com/itextpdf/signatures/PdfPadesSigner.java:324-327 | Sets the estimated signature size. |
| PadesSigner.PdfPadesSigner.SetOcspClient | sign/src/main/java/com/itextpdf/signatures/PdfPadesSigner.java:340-343 | Sets the OCSP client. |
| PadesSigner.PdfPadesSigner.SetCrlClient | sign/src/main/java/com/itextpdf/signatures/PdfPadesSigner.java:356-359 | Sets the CRL client. |
| PadesSigner.PdfPadesSigner.GetNextTempFile | sign/src/main/java/com/itextpdf/signatures/PdfPadesSigner.java:430-443 | PATH_IS_NOT_DIRECTORY with nothing changed when the directory is missing. Otherwise the do-while loop skips names that exist as files or directories and leaves the shared counter at NextFreeIndex, strictly larger than before. The name it returns belongs to no file or directory, becomes tempFile and is added to tempFiles. |
| PadesSigner.PdfPadesSigner.CreateOutputStream | sign/src/main/java/com/itextpdf/signatures/PdfPadesSigner.java:415-421 | Result and new storage state are those of CreateOutput. |
| PadesSigner.PdfPadesSigner.CreateInputStream | sign/src/main/java/com/itextpdf/signatures/PdfPadesSigner.java:423-428 | Reads the latest temporary file in directory mode and the latest buffer in memory mode. |
| PadesSigner.PdfPadesSigner.CreateRevocationClients | sign/src/main/java/com/itextpdf/signatures/PdfPadesSigner.java:445-459 | Follows ResolveClients. On failure both clients are left as they were. |
| PadesSigner.PdfPadesSigner.SubstituteOutputStream | sign/src/main/java/com/itextpdf/signatures/PdfPadesSigner.java:403-407 | On success the signer's stream becomes the new temporary stream and the old one is returned. On failure the signer's stream is unchanged. |
| PadesSigner.PdfPadesSigner.PerformSignDetached | sign/src/main/java/com/itextpdf/signatures/PdfPadesSigner.java:381-390 | Records the detached signature and then the close of the signer's stream, which happens whether signing returns or throws. |
| PadesSigner.PdfPadesSigner.PerformLtvVerification | sign/src/main/java/com/itextpdf/signatures/PdfPadesSigner.java:392-401 | The loop records exactly the events of LtvRun and ends with its outcome. |
| PadesSigner.PdfPadesSigner.PerformTimestamping | sign/src/main/java/com/itextpdf/signatures/PdfPadesSigner.java:375-379 | One timestamp to the given stream with the configured name and the current tempOutputStream and tempFile. |
| PadesSigner.PdfPadesSigner.DeleteFile | sign/src/main/java/com/itextpdf/signatures/PdfPadesSigner.java:411 | Removes one file and records its deletion. |
| PadesSigner.PdfPadesSigner.DeleteTempFiles | sign/src/main/java/com/itextpdf/signatures/PdfPadesSigner.java:409-413 | Removes exactly the tracked files and records one deletion per tracked file. |
| PadesSigner.PdfPadesSigner.SignWithBaselineBProfile | sign/src/main/java/com/itextpdf/signatures/PdfPadesSigner.java:92-95 | Follows BaselineT with no TSA client. |
| PadesSigner.PdfPadesSigner.SignWithBaselineTProfile | sign/src/main/java/com/itextpdf/signatures/PdfPadesSigner.java:125-128 | Follows BaselineT with the given TSA client. |
| PadesSigner.PdfPadesSigner.BaselineLTStages | sign/src/main/java/com/itextpdf/signatures/PdfPadesSigner.java:161-169 | The try block of Baseline-LT follows BaselineLT. |
| PadesSigner.PdfPadesSigner.SignAndAppend | sign/src/main/java/com/itextpdf/signatures/PdfPadesSigner.java:163-168 | With the signer on a temporary stream: the detached signature, then the append-mode reopen on the caller's stream and the evidence. |
| PadesSigner.PdfPadesSigner.AppendedEvidence | sign/src/main/java/com/itextpdf/signatures/PdfPadesSigner.java:164-168 | The inner try-with-resources of Baseline-LT: reopen, evidence, and the document closed once it was opened. |
| PadesSigner.PdfPadesSigner.BaselineLTStagesThenDelete | sign/src/main/java/com/itextpdf/signatures/PdfPadesSigner.java:161-172 | The try block of Baseline-LT and its finally: BaselineLT's events, then one deletion per tracked file, and no tracked file left. |
| PadesSigner.PdfPadesSigner.SignWithBaselineLTProfile | sign/src/main/java/com/itextpdf/signatures/PdfPadesSigner.java:159-173 | If client resolution fails, nothing else happens. Otherwise the run is BaselineLT, followed by deletion of every tracked file, whichever way the run ended. |
| PadesSigner.PdfPadesSigner.BaselineLTAStages | sign/src/main/java/com/itextpdf/signatures/PdfPadesSigner.java:207-215 | The try block of Baseline-LTA follows BaselineLTA. |
| PadesSigner.PdfPadesSigner.SignAndTimestamp | sign/src/main/java/com/itextpdf/signatures/PdfPadesSigner.java:209-215 | With the signer on a temporary stream: the detached signature; if it returns, the rest follows LtaAfterSigning. |
| PadesSigner.PdfPadesSigner.EvidenceOnSecondStream | sign/src/main/java/com/itextpdf/signatures/PdfPadesSigner.java:210-215 | The resources in Java's order follow LtaAfterSigning: createInputStream, the PdfReader (if it throws, no second stream is allocated), then createOutputStream with its PATH_IS_NOT_DIRECTORY. |
| PadesSigner.PdfPadesSigner.TimestampedEvidence | sign/src/main/java/com/itextpdf/signatures/PdfPadesSigner.java:210-215 | Append-mode reopen, evidence, then the document timestamp, with the document closed once it was opened. |
| PadesSigner.PdfPadesSigner.BaselineLTAStagesThenDelete | sign/src/main/java/com/itextpdf/signatures/PdfPadesSigner.java:206-218 | The try block of Baseline-LTA and its finally: BaselineLTA's events, then one deletion per tracked file, and no tracked file left. |
| PadesSigner.PdfPadesSigner.SignWithBaselineLTAProfile | sign/src/main/java/com/itextpdf/signatures/PdfPadesSigner.java:204-219 | If client resolution fails, nothing else happens. Otherwise the run is BaselineLTA, followed by deletion of every tracked file. |
| PadesSigner.PdfPadesSigner.ProlongDocument | sign/src/main/java/com/itextpdf/signatures/PdfPadesSigner.java:253-265 | The try-with-resources block of prolongSignatures. It resolves clients only when the open returned and a signature exists. |
| PadesSigner.PdfPadesSigner.ProlongEvidence | sign/src/main/java/com/itextpdf/signatures/PdfPadesSigner.java:256-264 | NO_SIGNATURES_TO_PROLONG with the clients untouched when there is no signature. Otherwise the clients are resolved as not required, then the evidence and, with a TSA client, the timestamp follow ProlongBody. |
| PadesSigner.PdfPadesSigner.ProlongSignatures | sign/src/main/java/com/itextpdf/signatures/PdfPadesSigner.java:250-266 | Follows Prolong as written, leaving the storage state at what Prolong returns, with no deletion. |
| PadesSigner.PdfPadesSigner.ProlongSignaturesAndDeleteTempFiles | sign/src/main/java/com/itextpdf/signatures/PdfPadesSigner.java:250-266 | prolongSignatures with deleteTempFiles in finally: Prolong, then deletion of every tracked file. |
| AddIndexStrategy.Normalize | forms/src/main/java/com/itextpdf/forms/fields/merging/AddIndexStrategy.java:66 | replaceAll(separator + "[0-9]+$", ""): the result is a prefix of the name. Whatever it removed is the separator followed by digits up to the end. No earlier position starts such a suffix (the leftmost match). |
| AddIndexStrategy.NormalizeStripsIndex | forms/src/main/java/com/itextpdf/forms/fields/merging/AddIndexStrategy.java:66 | For a non-empty separator whose last character is not a digit, a name ending in separator + digits normalises to the part before it. |
| AddIndexStrategy.IndexedNameNormalizes | forms/src/main/java/com/itextpdf/forms/fields/merging/AddIndexStrategy.java:60-66 | For a non-empty separator whose last character is not a digit, a name that execute produced normalises back to the original name. With the empty separator this fails: "a1" with index 2 gives "a12", which normalises to "a". |
| AddIndexStrategy.NormalizeKeeps | forms/src/main/java/com/itextpdf/forms/fields/merging/AddIndexStrategy.java:66 | For a non-empty separator, a name that does not contain the separator's first character is left unchanged. |
| AddIndexStrategy.NormalizeExamples | forms/src/main/java/com/itextpdf/forms/fields/merging/AddIndexStrategy.java:66 | "name" stays "name", "name_7" becomes "name", "a_1_2" becomes "a_1". |
| AddIndexStrategy.RequestsPositive | forms/src/main/java/com/itextpdf/forms/fields/merging/AddIndexStrategy.java:65-74 | A normalised name has a nonzero count only if some request normalised to it. |
| AddIndexStrategy.AddIndexStrategy.WithSeparator | forms/src/main/java/com/itextpdf/forms/fields/merging/AddIndexStrategy.java:23-29 | A strategy with the separator and an empty count map. |
| AddIndexStrategy.AddIndexStrategy.Create | forms/src/main/java/com/itextpdf/forms/fields/merging/AddIndexStrategy.java:23-29 | SEPARATOR_SHOULD_BE_A_VALID_VALUE exactly when the separator is null or contains a dot. Otherwise a fresh strategy with an empty count map. |
| AddIndexStrategy.AddIndexStrategy.CreateDefault | forms/src/main/java/com/itextpdf/forms/fields/merging/AddIndexStrategy.java:37-39 | The default separator "_". |
| AddIndexStrategy.AddIndexStrategy.GetNextIndex | forms/src/main/java/com/itextpdf/forms/fields/merging/AddIndexStrategy.java:65-74 | The n-th request for a normalised name returns n, and it returns 1 exactly for a new name. The count map gains that one entry and no other key changes. |
| AddIndexStrategy.AddIndexStrategy.Execute | forms/src/main/java/com/itextpdf/forms/fields/merging/AddIndexStrategy.java:52-63 | false with nothing changed when a field is missing, and a present second field keeps its name. true with nothing renamed when a field has no name. Otherwise the second field gets the first field's name + separator + next index, and the first field keeps its name. |
| MacIntegrity.SetUpMac | kernel/src/test/java/com/itextpdf/kernel/mac/MacIntegrityProtectorTest.java:87-229 | FIPS mode always refuses (HKDF unavailable). Otherwise the gate fails for a version below 2.0, with the default version 1.7 when none is set, and for an encryption algorithm of version below 5. Otherwise it passes. |
| MacIntegrity.WriteProtectedDocument | kernel/src/test/java/com/itextpdf/kernel/mac/MacIntegrityProtectorTest.java:114-145 | A gate failure is reported as is. Past the gate, writing succeeds exactly when the stream is writable, and a stream's exception surfaces with its own message. |
| MacIntegrity.StandaloneMacStandardEncryption | kernel/src/test/java/com/itextpdf/kernel/mac/MacIntegrityProtectorTest.java:87-111 | AES-256 on PDF 2.0 passes. Under FIPS it fails with the HKDF message. |
| MacIntegrity.StandaloneMacUnwritableStream | kernel/src/test/java/com/itextpdf/kernel/mac/MacIntegrityProtectorTest.java:114-145 | With BouncyCastle, a stream that throws "expected" fails with "expected". Under FIPS the test writes to a file instead and fails with the HKDF message. |
| MacIntegrity.StandaloneMacWithAllHashAlgorithms | kernel/src/test/java/com/itextpdf/kernel/mac/MacIntegrityProtectorTest.java:148-175 | Every MAC digest algorithm passes, and under FIPS each fails with the HKDF message. |
| MacIntegrity.StandaloneMacPdfVersionNotSet | kernel/src/test/java/com/itextpdf/kernel/mac/MacIntegrityProtectorTest.java:178-202 | No version set fails with the PDF 2.0 message. Under FIPS the HKDF message comes first. |
| MacIntegrity.StandaloneMacOldEncryptionAlgorithm | kernel/src/test/java/com/itextpdf/kernel/mac/MacIntegrityProtectorTest.java:205-229 | AES-128 fails with the algorithm-version-5 message. Under FIPS the HKDF message comes first. |
| MacIntegrity.StandaloneMacPublicKeyEncryption | kernel/src/test/java/com/itextpdf/kernel/mac/MacIntegrityProtectorTest.java:233-263 | Public-key encryption passes, and fails under FIPS. |
| MacIntegrity.GateIgnoresKindAndDigest | kernel/src/test/java/com/itextpdf/kernel/mac/MacIntegrityProtectorTest.java:148-175 | Neither the encryption kind nor the MAC properties affect the gate. |
| StringSplit.Split | commons/src/test/java/com/itextpdf/commons/utils/StringUtilTest.java:103-167 | At least one part is returned. |
| StringSplit.SplitKeepTrailingWhiteSpace | commons/src/test/java/com/itextpdf/commons/utils/StringUtilTest.java:114-118 | A null source raises. Otherwise there is at least one part, no part contains the separator, and the parts, rejoined with the separator, give back the source; by SplitCharacterised that fixes the result. |
| StringSplit.SplitJoin | commons/src/test/java/com/itextpdf/commons/utils/StringUtilTest.java:103-167 | Joining the parts with the separator restores the source. |
| StringSplit.SplitCount | commons/src/test/java/com/itextpdf/commons/utils/StringUtilTest.java:103-167 | There is one part more than there are separators, so empty parts are kept. |
| StringSplit.SplitSeparated | commons/src/test/java/com/itextpdf/commons/utils/StringUtilTest.java:103-167 | No part contains the separator. |
| StringSplit.JoinSplit | commons/src/test/java/com/itextpdf/commons/utils/StringUtilTest.java:103-167 | Separator-free parts that join to s are exactly Split(s). |
| StringSplit.SplitCharacterised | commons/src/test/java/com/itextpdf/commons/utils/StringUtilTest.java:103-167 | Split(s) is the unique separator-free sequence of parts that joins to s. |
| StringSplit.DropTrailingEmpty | commons/src/test/java/com/itextpdf/commons/utils/StringUtilTest.java:103-112 | Drops exactly the trailing empty parts. |
| StringSplit.LastPartEmpty | commons/src/test/java/com/itextpdf/commons/utils/StringUtilTest.java:153-167 | The last part is empty if and only if the source is empty or ends in the separator. |
| StringSplit.NoSeparatorOnePart | commons/src/test/java/com/itextpdf/commons/utils/StringUtilTest.java:120-126 | A source without the separator is one part. |
| StringSplit.SplitAtFirst | commons/src/test/java/com/itextpdf/commons/utils/StringUtilTest.java:120-151 | Splitting at the first separator gives the part before it followed by the split of the rest. |
| StringSplit.SplitOnce | commons/src/test/java/com/itextpdf/commons/utils/StringUtilTest.java:120-126 | One separator between separator-free strings gives those two parts. |
| StringSplit.SplitTwice | commons/src/test/java/com/itextpdf/commons/utils/StringUtilTest.java:129-135 | Two adjacent separators leave one empty part between the neighbours. |
| StringSplit.SplitThrice | commons/src/test/java/com/itextpdf/commons/utils/StringUtilTest.java:137-143 | Three adjacent separators leave two empty parts between the neighbours. |
| StringSplit.SplitsAgree | commons/src/test/java/com/itextpdf/commons/utils/StringUtilTest.java:153-167 | The split agrees with String.split if and only if the source is empty or does not end in the separator. |
| StringSplit.SplitEmptySource | commons/src/test/java/com/itextpdf/commons/utils/StringUtilTest.java:103-111 | "" gives [""], as String.split does. |
| StringSplit.SplitTwoParts | commons/src/test/java/com/itextpdf/commons/utils/StringUtilTest.java:120-126 | "test.test1" gives ["test", "test1"]. |
| StringSplit.SplitDoubleSeparator | commons/src/test/java/com/itextpdf/commons/utils/StringUtilTest.java:129-135 | "test..test1" gives ["test", "", "test1"]. |
| StringSplit.SplitTripleSeparator | commons/src/test/java/com/itextpdf/commons/utils/StringUtilTest.java:137-143 | "test...test1" gives ["test", "", "", "test1"]. |
| StringSplit.SplitLeadingSeparator | commons/src/test/java/com/itextpdf/commons/utils/StringUtilTest.java:145-151 | ".test1" gives ["", "test1"]. |
| StringSplit.SplitTrailingSeparator | commons/src/test/java/com/itextpdf/commons/utils/StringUtilTest.java:153-167 | "test." gives ["test", ""] and "test.." gives ["test", "", ""], where String.split would drop the empty parts. |
| CopyrightSince.EarliestSinceYear | kernel/src/test/java/com/itextpdf/kernel/actions/producer/CopyrightSincePlaceholderPopulatorTest.java:43-61 | The result is one of the events' since-years and no larger than any of them. |
| CopyrightSince.Populate | kernel/src/test/java/com/itextpdf/kernel/actions/producer/CopyrightSincePlaceholderPopulatorTest.java:43-61 | The placeholder becomes the decimal digits of the earliest since-year, with no leading zero. |
| CopyrightSince.SinceYearsDecide | kernel/src/test/java/com/itextpdf/kernel/actions/producer/CopyrightSincePlaceholderPopulatorTest.java:57-61 | Only the set of since-years matters: repeats and order do not. |
| CopyrightSince.OneEvent | kernel/src/test/java/com/itextpdf/kernel/actions/producer/CopyrightSincePlaceholderPopulatorTest.java:43-47 | One event from 1994 gives "1994". |
| CopyrightSince.SeveralEvents | kernel/src/test/java/com/itextpdf/kernel/actions/producer/CopyrightSincePlaceholderPopulatorTest.java:50-54 | 2012, 1994, 1998 give "1994". |
| CopyrightSince.SeveralEventsWithSameYear | kernel/src/test/java/com/itextpdf/kernel/actions/producer/CopyrightSincePlaceholderPopulatorTest.java:57-61 | 1992, 1998, 1992, 1998 give "1992". |
| CopyrightSince.ToYearIgnored | kernel/src/test/java/com/itextpdf/kernel/actions/producer/CopyrightSincePlaceholderPopulatorTest.java:64-73 | The to-year of the copyright does not matter. |
| Numerals.DecimalIsNumeral | sign/src/main/java/com/itextpdf/signatures/PdfPadesSigner.java:438 | The decimal text of a counter is digits with no leading zero. |
| Numerals.ParseDecimalOfDecimal | sign/src/main/java/com/itextpdf/signatures/PdfPadesSigner.java:438 | Parsing the decimal text of n gives n. |
| Numerals.DecimalInjective | sign/src/main/java/com/itextpdf/signatures/PdfPadesSigner.java:438 | Different numbers have different decimal texts. |

## Left out

- The private-key overloads of the four profiles (sign/src/main/java/com/itextpdf/signatures/PdfPadesSigner.java:107-112, 141-146, 186-191, 232-237): they only wrap the key in a PrivateKeySignature and delegate.
- setExternalDigest, the external digest and the external signature: they are passed through to signDetached, which is outside the model.
- prolongSignatures(reader, outputStream) (sign/src/main/java/com/itextpdf/signatures/PdfPadesSigner.java:277-280): it is ProlongSignatures with no TSA client.
- The bodies of signDetached, addVerification, merge, timestamp, PdfDocument, PdfReader and PdfWriter. They are foreign calls, recorded as events whose success is the parameter ok.
- The reader passed to prolongSignatures and the signature names read from it are parameters.
- The bytes of documents, signatures, evidence and timestamps are not modelled.
- PadesModel.ProlongLeavesTempFile: a run that reaches the document timestamp is taken to leave the files alone. performTimestamping passes tempFile to a new PdfSigner, which is not part of this model. The source text settles only the runs that stop before the timestamp (ProlongWithoutSignaturesLeavesTempFile).
- In Baseline-LT the reader and the append-mode document are one OpenAppend event, because nothing runs between them. In Baseline-LTA, createOutputStream runs between them, so they are separate events there.
- FileNotFoundException from opening a temporary file, failures of close and delete, and the input stream that try-with-resources closes are not modelled.
- The X509Certificate cast in createRevocationClients: a certificate is only its OCSP and CRL URLs.
- Threads: the lock around the counter is taken to run its body atomically, and concurrent sessions are not modelled.
- PadesSigner.PdfPadesSigner.GetNextTempFile: the static counter is a 64-bit long and the model does not wrap it around.
- AddIndexStrategy.AddIndexStrategy.GetNextIndex: the java.lang.Integer count is not bounded.
- AddIndexStrategy.AddIndexStrategy.Execute: throwExceptionOnError is ignored, as the source ignores it.
- AddIndexStrategy.Normalize: the separator is treated literally. The source puts it into a regular expression, so a separator with metacharacters behaves differently there.
- AddIndexStrategy.Normalize: the model does not let $ match before a final line terminator.
- CopyrightSince.Populate: an empty list of events is excluded. The populator's own source is not part of this model.
- MacIntegrity.SetUpMac: the tests do not show whether the version or the algorithm is checked first; the model checks the version first.
- The algorithm versions and the default PDF version 1.7 are taken from the encryption constants and the writer defaults, which are not part of this model.
- The byte-level comparisons of the MAC tests and the public-key test's exception type are not modelled.
- The regular-expression splits of StringUtilTest (patternSplit, stringSplit) are left out. JavaSplit models String.split only for a literal one-character separator.

## Findings

| source | as written | input that shows it | evidently intended | confidence | as-written member | corrected member |
|---|---|---|---|---|---|---|
| sign/src/main/java/com/itextpdf/signatures/PdfPadesSigner.java:250-266 | prolongSignatures allocates a temporary stream when a TSA client is given and never calls deleteTempFiles | a configured, existing temporary directory, any TSA client and a document without signatures. createOutputStream creates tempPdfFileN.pdf, NO_SIGNATURES_TO_PROLONG is thrown, and no deleteTempFiles follows, so the file is still there. On a successful run the same holds in the model, but whether PdfSigner.timestamp removes tempFile is not shown | temporary files are deleted in finally, as the LT and LTA profiles do | not executed | PadesModel.ProlongWithoutSignaturesLeavesTempFile | PadesModel.ProlongAndDeleteTempFilesLeavesNoNewFiles |
