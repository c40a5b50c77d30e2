# Raticode: verified protocols and algorithms

A Dafny model of the parts of Raticode where order, interruption and interleaving matter, with
proofs of what they keep.

- **Releases** (`Manifests`, `Releases`, `ReleaseJobs`, `ReleaseProtocol`, `ReleaseTurns`, `ReleaseRerun`,
  `ReleaseAlone`). Preparation
  records a manifest; staging uploads a draft and marks it; publishing turns the one verified draft public.
  `ReleaseJobs` has the jobs as methods over a store, killed at any API call. `ReleaseProtocol` runs
  any number of jobs one call at a time in any order, with reruns and tag moves between;
  `ReleaseTurns` adds that publish jobs of one tag take turns, which release.yml asks for with its
  concurrency group (.github/workflows/release.yml:11-13), `ReleaseRerun` says when a rerun
  succeeds, and `ReleaseAlone` that a job left to itself gets to its end.
- **Dictation** (`DictationText`, `Dictation`, `Composer`, `AudioSession`, `Resampler`). The
  composer's controller as a state machine over commands, pending promises and timers, its handlers
  as methods on the dictation object, the recording session that feeds it, and the resampler.
- **The editor** (`EditorSave`, `Tabs`). Saving, autosaving and dirty tracking while edits race a
  write; the order of mounted documents.
- **The desktop main process** (`Lifecycle`, `LineReader`, `ShellQuote`, `RestartLimiter`).
- **The macOS speech helper** (`Speech`).
- **Algorithms** (`AuditBatches`, `LicenseClosure`, `LinkPreviews`, `CopyName`).

Where the source updates an object, the model is a class whose handlers are proved equal to a
transition function on values; the properties of every run are lemmas about that function. The table
lists such a handler only where it has a loop or several stages. Clocks,
answers of remote services and user input are events or parameters, in any order the code allows.

Assumptions about the world: equal digests mean equal bytes; an upload or an edit of a release is
atomic; only these jobs write drafts; one preparation attempt attests one manifest; fetches and
subprocesses settle, if they do, once; equal version numbers of an editor model mean equal text;
arithmetic on samples is exact. The message box is read-only while a dictation runs.

Where the code does not do what its comments or names suggest, the model follows the code:

- A link preview for a URL that cannot be encoded, one with a lone surrogate, throws after it took its
  slot, and never gives it back (`LinkPreviews.AllResolvedExactly` has the exact condition). Pages
  collected from a turn pass `publicUrl` (chatSources.js:76-83), which returns an encoded URL, so such a
  one comes only from sources stored with a message or a result.
- Preparation accepts an empty file, and a version with digits of other scripts, that validation then
  refuses (`Manifests.ManifestValidity`).
- A window created while the app quits without approval, as it can be when the quit began before the
  first window, closes the gate again: the quit comes to a stand (`Lifecycle.StallsExactly`), and if the
  renderer then declines, the app is left half quit (`Lifecycle.DeclinedWhileQuitting`).
- A clock that is set back lets more reloads through than three in an hour
  (`RestartLimiter.ClockSetBack`).
- `closeSession` compares the wrapped promise with the bare one, so `dictation.closing` is never
  cleared; it stays behind as a settled promise, and nothing depends on the difference.
- A stop while the microphone reopens is lost for the moment if reopening fails
  (`Dictation.StopWhileReopening`).
- Below 16 kHz the resampling windows overlap (`Resampler.WindowsContiguous`); a recording shorter
  than one output step can have a window past its end (`Resampler.WindowsInBounds`).
- A restored draft is dirty and arms no autosave timer (`EditorSave.AutosaveCoversExactly`), a
  changed managed document can be taken for clean, by a sync or by undoing one
  (`EditorSave.ManagedTestExactly`, `EditorSave.UndoSafeExactly`), and typing during the saved callback
  leaves the flag clean (`EditorSave.FlagWrongExactly`).

`dafny verify dfyconfig.toml` checks the whole project.

## Model

| member | source | states |
|---|---|---|
| `Manifests.AddGroup` | scripts/release-candidate.py:203-217 | Succeeds exactly when no name of the group is recorded by an earlier group, and then the inventory records every earlier file and every file of the group, and nothing else. |
| `Manifests.ReadChecksums` | scripts/release-candidate.py:152-161 | A checksum list is read exactly when no name is listed twice; then every line is in it. |
| `Manifests.CheckDigests` | scripts/release-candidate.py:150-167 | Passes exactly when the list covers every other file of the folder, each once, with its digest. |
| `Manifests.VerifyGroup` | scripts/release-candidate.py:134-182 | Passes exactly when the folder has its complete inventory of plain files, checksums, package tests and, when signed, signatures or notarizations that bear it out. |
| `Manifests.RecordGroups` | scripts/release-candidate.py:202-217 | Succeeds exactly when every group passes its verification and no two groups share a name; the result records exactly the groups' files. |
| `Manifests.CreateManifest` | scripts/release-candidate.py:185-239 | Succeeds exactly for a full commit hash, one unexpired artifact a group, an empty output directory and exactly the expected groups, verified and disjoint; the manifest it writes passes `validate_manifest` exactly when run and attempt are positive, no file is empty and the version has only file-name characters. |
| `Manifests.ManifestValidity` | scripts/release-candidate.py:242-282 | Validation and preparation agree except on two families: a recorded manifest is valid if and only if its run identity is positive, no file is empty, and the version has only ASCII file-name characters. |
| `Manifests.InventorySafeExactly` | scripts/release-candidate.py:89-172 | The names of a complete inventory are all safe if and only if the version is, or the group is the audit evidence, which names no version. |
| `Manifests.VersionIsSafe` | scripts/release-candidate.py:80-80 | An x.y.z version in ASCII digits has only file-name characters, so validation never refuses it for its names. |
| `Manifests.EmptyReportAccepted` | scripts/release-candidate.py:148-239 | Emptying any audit report of an acceptable preparation leaves it acceptable, although the manifest it gives is then refused. |
| `Manifests.TamperedRefused` | scripts/release-candidate.py:144-162 | Changing the bytes of any file of a package group, other than its list, makes an accepted preparation unacceptable. |
| `Manifests.SignedMeansSigned` | scripts/release-candidate.py:168-182 | In an accepted signed preparation every Windows program has a valid signature, and macOS is notarized. |
| `Manifests.ValidForOne` | scripts/release-candidate.py:242-256 | A manifest is valid for one repository, commit and version at most. |
| `Manifests.ValidManifestsAgree` | scripts/release-candidate.py:242-282 | Valid manifests of one version and signing policy list the same names in each group, but for the optional block map, and no empty file. |
| `Releases.CandidateSound` | scripts/release-candidate.py:444-467 | A release is usable only through an asset that is its own manifest, marked READY, attested, validated, from a successful run, and for a commit with the tagged commit's tree. |
| `Releases.MatchesIsIntact` | scripts/release-candidate.py:314-333 | Equal counts and equal name sets already rule out duplicate names: a release that passes the remote check is also an intact partial upload. |
| `Releases.MatchesExactly` | scripts/release-candidate.py:314-333 | A release passes the remote check if and only if its assets are the manifest and each of the manifest's files, once, with the recorded digests and sizes, and nothing else. |
| `Releases.ExactNamesAreDistinct` | scripts/release-candidate.py:321-326 | As many assets as names means that no two assets share a name. |
| `ReleaseJobs.IntactUpload` | scripts/release-candidate.py:377-390 | Uploading a missing expected file with the right digest keeps a partial upload intact. |
| `ReleaseJobs.IntactAndFullMatches` | scripts/release-candidate.py:376-391 | A partial upload that has become complete passes the byte-for-byte remote check, because equal digests mean equal bytes. |
| `ReleaseJobs.FullStaysSame` | scripts/release-candidate.py:376-391 | A release that matched exactly has exactly the same assets at any later time at which it is intact. |
| `ReleaseJobs.MarkedAcross` | scripts/release-candidate.py:352-415 | READY markers written by an earlier staging still sit on exact matches after a later one. |
| `ReleaseJobs.PublishedIsOnlyCandidate` | scripts/release-candidate.py:479-515 | A release published for a tag is all a rerun looks at, and is chosen. |
| `ReleaseJobs.TaggedAfterFlip` | scripts/release-candidate.py:529-542 | After the flip the version tag names the flipped release and no other. |
| `ReleaseJobs.FlipIsPublication` | scripts/release-candidate.py:529-545 | Flipping the chosen draft leaves the store in the state that a rerun recognises as already published. |
| `ReleaseJobs.ChosenIsListed` | scripts/release-candidate.py:479-516 | The release chosen for publication is one of the listed candidates. |
| `ReleaseJobs.CandidateExactly` | scripts/release-candidate.py:444-467 | A release is usable with a manifest if and only if that is its one manifest asset and it passes every check. |
| `ReleaseJobs.ChosenExactly` | scripts/release-candidate.py:479-515 | When no release has the version tag, the job's choice is a draft if and only if it is the only one offering a manifest of the tagged commit, or, when none does, the only one offering a manifest at all. |
| `ReleaseJobs.ReadyExactly` | scripts/release-candidate.py:470-533 | Such a draft is ready to be published if and only if the job chooses it and it passes every later check: complete, at most seven days old, the tag where it was. |
| `ReleaseJobs.StagedOffers` | scripts/release-candidate.py:391-467 | What staging completes publication accepts: the marked draft offers the staged manifest and matches it. |
| `ReleaseJobs.GitHub.VerifyRemote` | scripts/release-candidate.py:314-333 | Passes exactly when count, names, digests and recorded sizes of all assets are the expected ones, unless it is stopped; it writes nothing. |
| `ReleaseJobs.GitHub.SyncFile` | scripts/release-candidate.py:382-390 | Adds at most the one missing file, never touches an asset that is there, keeps an intact upload intact, and succeeds on one if it is not stopped. |
| `ReleaseJobs.GitHub.SyncAll` | scripts/release-candidate.py:382-390 | Ends with exactly the expected names, or stops with assets only added; an intact upload stays intact however far it gets. |
| `ReleaseJobs.GitHub.UploadMissing` | scripts/release-candidate.py:376-390 | Resuming only adds assets; when it finishes, the release has exactly the expected names. |
| `ReleaseJobs.GitHub.OpenDraft` | scripts/release-candidate.py:358-375 | Finds the single draft with the tag or creates it empty; it fails exactly on an ambiguous or public release and then changes nothing. |
| `ReleaseJobs.GitHub.Fill` | scripts/release-candidate.py:376-415 | The marker is written only on a release that matches exactly at that moment; stopped at any call, the release has only gained assets and is still resumable. |
| `ReleaseJobs.GitHub.Stage` | scripts/release-candidate.py:352-415 | Stopped at any call: assets only grow, markers sit only on exact matches, and the draft stays resumable. With enough calls on a resumable store staging succeeds. |
| `ReleaseJobs.GitHub.StageRepeatedly` | scripts/release-candidate.py:352-415 | However often staging is stopped and rerun, all of the above holds across the whole series, and a last run with enough calls completes it. |
| `ReleaseJobs.GitHub.ReadCandidate` | scripts/release-candidate.py:444-467 | Returns the manifest exactly when the release is a usable candidate, fails exactly when it is not, and writes nothing. |
| `ReleaseJobs.GitHub.ReadAll` | scripts/release-candidate.py:498-507 | Collects exactly the usable candidates in listing order; an unusable release with the version tag is an error, an unusable draft is skipped. |
| `ReleaseJobs.GitHub.Prefer` | scripts/release-candidate.py:510-510 | Candidates of the tagged commit itself win; without any, all usable candidates stay. |
| `ReleaseJobs.GitHub.Choose` | scripts/release-candidate.py:479-516 | Returns a release only if it is the one choice left after reading and preferring, and, with enough calls, whenever there is one. |
| `ReleaseJobs.GitHub.MakePublic` | scripts/release-candidate.py:516-545 | With enough calls a chosen release that is complete and, as a draft, fresh ends public, confirmed, with success; otherwise at most the one draft changes, only while it is fresh and its tag still names the commit, and only into a release that passes every publication check. |
| `ReleaseJobs.GitHub.Publish` | scripts/release-candidate.py:470-546 | With enough calls on a store with a draft ready to be published it succeeds and makes exactly that draft public, with its assets and body as they were; it never writes anything else, and a draft made public under a new tag was the one ready. On an already published tag it succeeds and writes nothing. |
| `ReleaseJobs.GitHub.PublishAgain` | scripts/release-candidate.py:470-546 | Killed after any number of calls and rerun at once: if the first run flipped the release, the rerun confirms it and writes nothing. |
| `ReleaseProtocol.AssetsNeverChange` | scripts/release-candidate.py:352-546 | Under every interleaving of staging and publishing jobs, kills, reruns and tag moves, no uploaded asset is changed or removed. |
| `ReleaseProtocol.MarkedOnlyWhenComplete` | scripts/release-candidate.py:391-415 | Under every such interleaving a READY marker is only ever found on a release that matches exactly the manifest it was created for. |
| `ReleaseProtocol.PublicOnlyWhenVerified` | scripts/release-candidate.py:470-546 | Under every such interleaving a public release holds exactly the files of an attested, validated manifest whose run succeeded, whose commit has the tree of a commit its tag named, which was validated for the version in that tag and was at most seven days old for the job that published it. |
| `ReleaseProtocol.RunKeeps` | scripts/release-candidate.py:352-546 | The inductive invariant behind the three properties above holds after every run. |
| `ReleaseProtocol.FullFrozen` | scripts/release-candidate.py:376-391 | A complete release never changes its assets again. |
| `ReleaseProtocol.RemarkedIsPublished` | scripts/release-candidate.py:408-415 | A staging rerun that rewrites the marker of a release that was made public in the meantime leaves it properly published. |
| `ReleaseProtocol.CandidateTagInjective` | scripts/release-candidate.py:348-349 | The candidate tag determines commit, run and attempt. |
| `ReleaseProtocol.OneManifestPerAttempt` | scripts/release-candidate.py:242-282 | With the repository's own manifest rule, one attested manifest per preparation attempt means one per candidate tag, which is what the protocol assumes. |
| `ReleaseTurns.PublicKeepsTag` | scripts/release-candidate.py:255-282 | In every run a public release stays public under its tag: whoever would publish it again gives it the same one, because the manifest fixes the version. |
| `ReleaseTurns.OneReleasePerTag` | scripts/release-candidate.py:479-542 | When publish jobs of one tag take turns, as the workflow has them, a version tag never names two releases, whatever stage jobs, other tags' jobs, kills, reruns and tag moves do in between. |
| `ReleaseTurns.PublishedOnce` | scripts/release-candidate.py:516-542 | Then each release is made public by one job only. |
| `ReleaseTurns.TurnsKeep` | scripts/release-candidate.py:479-542 | The invariant behind these: a job that is to publish a draft has the turn of its tag only while no release is public under it. |
| `ReleaseRerun.RerunConfirms` | scripts/release-candidate.py:470-546 | In every run with turns, for a public release and a fresh job with its publisher's tag, commit and version: no call of the job writes, the release keeps its assets, and the job fails if and only if the tag names another commit when it asks; enough calls end it, with success exactly when the tag held. |
| `ReleaseRerun.RerunAloneSucceeds` | scripts/release-candidate.py:470-546 | Run on its own in any reachable world, turns or not, the job changes no release and succeeds if and only if the release alone has the tag and the tag names the commit. |
| `ReleaseAlone.SameChoice` | scripts/release-candidate.py:496-515 | What the interleaved job collects call by call and then chooses is what the sequential job chooses. |
| `ReleaseAlone.PublishAloneCompletes` | scripts/release-candidate.py:470-546 | A publish job that runs alone in any world with a draft ready to be published makes exactly that draft public and ends with success. |
| `ReleaseAlone.StageAloneCompletes` | scripts/release-candidate.py:352-415 | A stage job that runs alone on a store it can resume, whatever the order of files, ends with success: its draft matches the manifest, is marked, and nothing else has changed. |
| `DictationText.TrimCut` | frontend/src/lib/dictation.js:8-10 | Trimming cuts white space only, and leaves none at either end. |
| `DictationText.JoinNested` | frontend/src/lib/dictation.js:8-36 | Joining words to what was joined before is joining all of them at once: the running text is a function of the parts alone. |
| `DictationText.JoinSnoc` | frontend/src/lib/dictation.js:8-10 | One more part adds its trimmed text after a single space, or nothing if it is blank. |
| `DictationText.AppendKeepsBase` | frontend/src/lib/chatAttachments.js:152-156 | What was in the box stays at the front up to its trailing white space, and the trimmed transcript follows. |
| `DictationText.HeardReplaces` | frontend/src/lib/dictation.js:24-26 | A partial text stands for its whole session: only the latest one counts, behind what earlier sessions left. |
| `DictationText.EndingKeepsText` | frontend/src/lib/dictation.js:29-38 | A session that is cut short, or ends without a final text, leaves the whole text as it was. |
| `DictationText.OnlyDroppedAreResent` | frontend/src/lib/progressiveTidy.js:42-89 | Words once sent are sent again only if their request was dropped; any answer settles them, and an accepted one is ready for exactly them. |
| `DictationText.DictatedText.Result` | frontend/src/lib/dictation.js:29-32 | The session's last words join the committed ones; those heard before stand in when the final text is blank. |
| `DictationText.ProgressiveTidy.Send` | frontend/src/lib/progressiveTidy.js:43-50 | Sends new, voiced words only, never the words that were just tidied or just failed, and only when no request is out. |
| `DictationText.ProgressiveTidy.TakeAnswer` | frontend/src/lib/progressiveTidy.js:66-79 | A stale answer changes nothing, a failed one is remembered, a good one replaces the tidied text; a change is reported exactly when that text changed. |
| `Dictation.EverySessionInOnePlace` | frontend/src/components/ChatComposer.jsx:83-109 | In every run each session is in exactly one place: held, stopping, stopped or cancelled. One is held only by the current dictation, and only while the composer shows that it listens. |
| `Dictation.MicrophoneReleased` | frontend/src/components/ChatComposer.jsx:83-101 | Once a dictation has ended and no stop is pending, every session it ever opened was stopped or cancelled. |
| `Dictation.ObeyKeepsSessions` | frontend/src/components/ChatComposer.jsx:334-388 | Pause, resume, stop, let go, discard, context change and unmount keep the account of sessions, phase and flags. |
| `Dictation.ArriveKeepsSessions` | frontend/src/components/ChatComposer.jsx:265-375 | So does every promise and callback that settles, for the current dictation and for ended ones. |
| `Dictation.WordsInOrder` | frontend/src/lib/dictation.js:12-39 | The committed words are the joined words of the stopped sessions, each exactly once, in the order the sessions were opened. |
| `Dictation.BoxShowsWords` | frontend/src/components/ChatComposer.jsx:165-183 | While a dictation runs, the box holds its base text, or the base and the words heard so far (tidying off) or the latest tidied text (tidying on). |
| `Dictation.DiscardRestores` | frontend/src/components/ChatComposer.jsx:504-510 | Discarding at any point of any run gives back the box exactly as it was when the dictation began. |
| `Dictation.EndedIsSilent` | frontend/src/components/ChatComposer.jsx:165-215 | Nothing that settles for an ended dictation writes the box or ends another dictation. |
| `Dictation.EndedCouldBeErased` | frontend/src/components/ChatComposer.jsx:199-375 | From the moment a dictation has ended, a run and the same run without anything that settles for it end with the same box, the same current dictation and the same other dictations. |
| `Dictation.AnswerNeverStale` | frontend/src/lib/progressiveTidy.js:65-68 | At most one tidy request is out, so the composer never meets the stale answer that the progress object guards against. |
| `Dictation.RoundIsForAllWords` | frontend/src/components/ChatComposer.jsx:412-420 | In every run the round that finishing waits for, instead of asking again, is the one request out and carried exactly the words of the stopped sessions. |
| `Dictation.FinishedWords` | frontend/src/components/ChatComposer.jsx:383-438 | In every run, when finishing ends the dictation the box holds the base if nothing was heard, or the base and the words of every stopped session in order, or the base and a text given in answer to exactly those words; nothing is still held or stopping. |
| `Dictation.FailedWords` | frontend/src/components/ChatComposer.jsx:170-183 | In every run, when a stop that throws or a chunk that fails ends the dictation, the box holds the base and the words of every stopped session and of the failed one, in order, or stays as it was if there are none; nothing is still held or stopping. |
| `Dictation.StopLeavesWords` | frontend/src/components/ChatComposer.jsx:383-438 | In every run, from a stop on: unless the dictation is thrown away or its recording fails, the settlings it waits for, at most four, end it, and the box holds its base and the words of every session, the last one's final words included, or a text tidied from exactly those words. |
| `Dictation.StopBegins` | frontend/src/components/ChatComposer.jsx:515-527 | In every run a stop, or letting go with words heard, when no microphone is opening: no session is cancelled, nothing is written, the held session is asked for its last words, and the dictation is finishing. |
| `Dictation.PauseStops` | frontend/src/components/ChatComposer.jsx:334-341 | In every run a pause asks the held session for its last words and keeps words, box and everything else. |
| `Dictation.ResumeListens` | frontend/src/components/ChatComposer.jsx:343-375 | And a resume, once those words are in, listens to a new session with everything heard so far kept. |
| `Dictation.StartListens` | frontend/src/components/ChatComposer.jsx:285-313 | A start takes the box as its base and, once the microphone opens, listens to its first session. |
| `Dictation.StopDoneSays` | frontend/src/components/ChatComposer.jsx:265-283 | A session leaves its final text, or the latest partial one if that is blank, and the box shows all words so far unless they are to be tidied. |
| `Dictation.LastWordsChoice` | frontend/src/components/ChatComposer.jsx:383-432 | With the last words in: no words leave the base; without tidying they go to the box; a text ready for exactly them does; the round out for exactly them is awaited; otherwise they are sent. |
| `Dictation.AnswerEnds` | frontend/src/components/ChatComposer.jsx:408-438 | The awaited answer ends the dictation with its text in the box, or with the words heard when there is none. |
| `Dictation.DueRoundAsks` | frontend/src/components/ChatComposer.jsx:467-481 | A due round sends exactly the words heard so far, unless they are unvoiced, already tidied or failed, or another answer is awaited. |
| `Dictation.GoodAnswerShows` | frontend/src/components/ChatComposer.jsx:479-487 | A good answer replaces the words shown by its text, ready for exactly the words it was asked for. |
| `Dictation.FinishEnds` | frontend/src/components/ChatComposer.jsx:383-438 | Finishing cannot get stuck: whatever else happens in between, at most four settlings of the promises it waits for end the dictation. The silent return after an aborted request is reached only when the dictation had already ended. |
| `Dictation.StopWhileReopening` | frontend/src/components/ChatComposer.jsx:343-375 | A stop while the microphone reopens finishes once it opens; if it does not open, the dictation is paused instead and the stop takes effect at the next resume. |
| `Dictation.RunKeeps` | frontend/src/components/ChatComposer.jsx:83-510 | The invariant behind these holds after every run of commands, typing, promises and timers. |
| `Composer.ChatComposer.Settles` | frontend/src/components/ChatComposer.jsx:199-494 | With any number of dictation objects alive, handling whatever settles for one of them is one step of the controller: the others, the box and the current dictation are as the step says. |
| `Composer.ChatComposer.Obeys` | frontend/src/components/ChatComposer.jsx:83-101 | So is every command to the dictation that runs. |
| `Composer.ChatComposer.Starts` | frontend/src/components/ChatComposer.jsx:285-313 | So is starting one, whose object shares nothing with the others. |
| `AudioSession.SerialUpload` | frontend/src/components/ChatComposer.jsx:880-918 | In every run at most one chunk request is out, chunks go out in the order they were handed on, and the finish request is made at most once, with nothing out or failed and no chunk after it. |
| `AudioSession.EverySampleSent` | frontend/src/components/ChatComposer.jsx:247-256 | When the finish request goes out and the session was not cancelled, the chunks sent concatenate to every captured sample, once and in order. |
| `AudioSession.UploadArrives` | frontend/src/components/ChatComposer.jsx:880-1000 | When a recording that was heard stops, and nothing fails or is cancelled, the events its upload waits for, in whatever company, bring it to the finish request with every captured sample sent; a silent one is cancelled. |
| `AudioSession.AudioIsGathered` | frontend/src/components/ChatComposer.jsx:944-958 | Every buffer the open microphone delivers is kept, and handed on with what was gathered exactly when that fills a chunk. |
| `AudioSession.RecordedExactly` | frontend/src/components/ChatComposer.jsx:984-1000 | A stopped recording counts as recorded exactly when some captured sample reached the threshold in magnitude. |
| `AudioSession.PeakIsLoudest` | frontend/src/components/ChatComposer.jsx:949-953 | The running peak reaches a level exactly when some sample does. |
| `AudioSession.LiveSession.MeasurePeak` | frontend/src/components/ChatComposer.jsx:950-953 | The peak becomes the loudest of the old peak and the block. |
| `AudioSession.LiveSession.OnAudioProcess` | frontend/src/components/ChatComposer.jsx:944-958 | Captures the block and hands a full chunk on, as the transition says. |
| `AudioSession.LiveSession.StopRecording` | frontend/src/components/ChatComposer.jsx:984-1000 | Silence cancels the transcriber, anything else starts its finish, as the transition says. |
| `AudioSession.LiveSession.FinishAfterQueue` | frontend/src/components/ChatComposer.jsx:900-912 | After the queue has drained: a failure is thrown, otherwise the finish request goes out. |
| `Resampler.ChunksToPcm16` | frontend/src/components/ChatComposer.jsx:1007-1031 | The output has max(1, floor(length / ratio)) samples, each between the quantised least and greatest sample of its own window of the joined input, silence counting where the input has ended. |
| `Resampler.SampleNear` | frontend/src/components/ChatComposer.jsx:1017-1028 | Each sample is within one unit of the average of its window, scaled by 32768 below zero and by 32767 above, and clipped to full scale. |
| `Resampler.SumParts` | frontend/src/components/ChatComposer.jsx:1022-1025 | The sum of a window is the sum of its parts, and of one sample that sample. |
| `Resampler.WindowsContiguous` | frontend/src/components/ChatComposer.jsx:1018-1025 | The windows start at sample 0, are not empty and follow each other without gap or overlap if and only if the rate is at least 16000. |
| `Resampler.WindowsInBounds` | frontend/src/components/ChatComposer.jsx:1016-1025 | At any rate all windows stay inside the input if and only if it has a sample and holds the whole samples of one output step. |
| `Resampler.LittleUnused` | frontend/src/components/ChatComposer.jsx:1015-1025 | When the input covers an output step, at any rate, the last window ends inside it and fewer than ratio + 1 samples are left over. |
| `Resampler.WindowsConserve` | frontend/src/components/ChatComposer.jsx:1018-1025 | From 16 kHz on, the window sums add up to the sum of all samples up to the end of the last window. |
| `Resampler.QuantiseMonotone` | frontend/src/components/ChatComposer.jsx:1026-1028 | Quantising keeps order and stays within signed 16 bits; full scale maps to full scale. |
| `EditorSave.DirtyTestExact` | frontend/src/components/CodeWorkspace.jsx:1643-1644 | The version shortcut agrees with comparing the text if and only if the remembered version, when it is the present one, has the saved text. |
| `EditorSave.DirtyTestIsRight` | frontend/src/components/CodeWorkspace.jsx:1360-1434 | In every run of edits, undos, saves, failures and replacements the dirty test equals "the buffer differs from the saved text". |
| `EditorSave.ManagedTestExactly` | frontend/src/components/CodeWorkspace.jsx:1436-1449 | In every run of a managed document the test is wrong exactly when the present version is the remembered one and the last sync, with no write or replacement since, took another text for saved. |
| `EditorSave.UndoSafeExactly` | frontend/src/components/CodeWorkspace.jsx:1436-1449 | Some undo makes the test wrong exactly when the last sync, with no write or replacement since, took for saved another text than the remembered version has. |
| `EditorSave.SyncExample` | frontend/src/components/CodeWorkspace.jsx:1436-1449 | A sync after which it is wrong at once: changed, and taken for clean. |
| `EditorSave.UndoneSyncExample` | frontend/src/components/CodeWorkspace.jsx:1436-1449 | A clean sync that is undone: changed, and both test and flag say clean. |
| `EditorSave.AutosaveCoversExactly` | frontend/src/components/CodeWorkspace.jsx:1402-1434 | In every run unsaved text has a timer armed, a save under way, or a failed write with no edit since it began, if and only if the document opened clean: a restored draft arms no timer. |
| `EditorSave.QuietIsSaved` | frontend/src/components/CodeWorkspace.jsx:1408-1413 | A quiet editor whose last write did not fail holds what is saved. |
| `EditorSave.TimerSaves` | frontend/src/components/CodeWorkspace.jsx:1421-1428 | In every run a timer that fires on changed text with no save under way leaves a write of exactly the present text and version and no timer; during a save it stays armed; on saved text it ends. |
| `EditorSave.AutosaveArrives` | frontend/src/components/CodeWorkspace.jsx:1360-1434 | In every run of a document that opened clean, unless a failed write is all there is, the next step towards saving is pending while the buffer is not saved, and with nothing typed at most four such steps leave the buffer as it was, saved. |
| `EditorSave.FlagWrongExactly` | frontend/src/components/CodeWorkspace.jsx:1385-1413 | In every run, outside the saved callback, the shown flag is wrong exactly when the last edit, undo, replacement or callback was a callback whose flag (taken before it, or left alone when it failed) differs from whether the buffer has the saved text. |
| `EditorSave.ManagedFlagExactly` | frontend/src/components/CodeWorkspace.jsx:1385-1449 | For a managed document the flag is wrong exactly when the last event that moved text, saved text or flag was such a callback, an undo to a remembered version without the saved text, or a sync whose flag disagrees with its own texts. |
| `EditorSave.TypingDuringCallback` | frontend/src/components/CodeWorkspace.jsx:1385-1413 | A run in which it is not: typing during the saved callback leaves the flag clean over a changed buffer, with the timer armed. |
| `EditorSave.TextCodeEditor.OnContentChange` | frontend/src/components/CodeWorkspace.jsx:1640-1659 | Publishes the dirty test and arms the timer, as the transition says. |
| `EditorSave.TextCodeEditor.SaveDocument` | frontend/src/components/CodeWorkspace.jsx:1360-1371 | Starts a write of the present text and version unless one runs or nothing changed. |
| `EditorSave.TextCodeEditor.AutosaveTimerFired` | frontend/src/components/CodeWorkspace.jsx:1421-1428 | Saves, or arms again while a save runs. |
| `EditorSave.TextCodeEditor.WriteSettled` | frontend/src/components/CodeWorkspace.jsx:1379-1391 | A good write moves saved text and version together; a failed one changes neither. |
| `EditorSave.TextCodeEditor.SavedCallbackSettled` | frontend/src/components/CodeWorkspace.jsx:1391-1413 | Publishes the flag for the buffer as it was, and arms the timer if the buffer moved on. |
| `Tabs.StableIsPermutation` | frontend/src/components/CodeWorkspace.jsx:2113-2120 | The mounted documents are the open tabs, each once. |
| `Tabs.StableKeepsOrder` | frontend/src/components/CodeWorkspace.jsx:2113-2120 | Documents that stay open keep their order. |
| `Tabs.NewGoLast` | frontend/src/components/CodeWorkspace.jsx:2113-2120 | Newly opened documents come after those that stay, in the order of their tabs. |
| `Tabs.DocumentsArePermutation` | frontend/src/components/CodeWorkspace.jsx:211-221 | After every run of renders the mounted documents are a permutation of the open tabs. |
| `Tabs.DocumentsNeverSwap` | frontend/src/components/CodeWorkspace.jsx:209-221 | Over every run of opening, closing and reordering, two documents that stay open never swap. |
| `Tabs.ReorderTabs` | frontend/src/components/CodeWorkspace.jsx:2103-2111 | A permutation in which the dragged tab takes the target's place and the others keep their order; nothing changes when a tab is missing or dropped on itself. |
| `Tabs.PlacementDetermines` | frontend/src/components/CodeWorkspace.jsx:2103-2111 | These two facts determine the result. |
| `Tabs.MoveAndMoveBack` | frontend/src/components/CodeWorkspace.jsx:2103-2111 | Dropping the tab back on the tab now in its old place restores the order. |
| `Lifecycle.RequestsLawful` | frontend/electron/main.js:758-784 | Every request is resolved at most once, by the renderer it asked or with no by that renderer's destruction; an unresolved one is out to a living renderer. |
| `Lifecycle.AnswersCount` | frontend/electron/main.js:761-783 | In every run each resolution carries the value the asked renderer answered to that request while it was out, or no because that renderer was destroyed while it was. |
| `Lifecycle.YesQuits` | frontend/electron/main.js:768-810 | In every run: a quit asks a renderer that has announced itself; its yes approves the quit, whose continuation passes the gate and begins to drain; its no leaves everything as it was. |
| `Lifecycle.NobodyToAsk` | frontend/electron/main.js:769-792 | Without a window a quit goes on at once; with one whose renderer has not announced itself it goes on unasked. |
| `Lifecycle.QuitOrder` | frontend/electron/main.js:785-810 | The backend stops only after the archives drained, the process goes only after that and the log drained, and a quit is approved only by a yes to a request that some quit attempt waited for, or because no renderer was there to ask. |
| `Lifecycle.StagesNeedGate` | frontend/electron/main.js:785-810 | In every run a quit never goes back a stage, and begins or goes on only past the gate: approved, or without a window. |
| `Lifecycle.SettlingDecreases` | frontend/electron/main.js:785-810 | Once a quit has begun, whatever drains can settle, and each drain that does leaves fewer. |
| `Lifecycle.StallsExactly` | frontend/electron/main.js:785-810 | A quit comes to a stand if and only if its last drain settles in front of a closed gate (a window is there and the quit was not approved); then it asks. |
| `Lifecycle.DeclinedWhileQuitting` | frontend/electron/main.js:768-810 | A run in which the renderer then declines: the archives are closed, the backend runs on, and nothing carries the quit further. |
| `Lifecycle.QuitCompletes` | frontend/electron/main.js:793-810 | When its drains all settle, a quit under way ends the process if and only if it is past the gate, and otherwise comes to a stand and asks; as many settlings as are left are enough either way. |
| `Lifecycle.MainProcess.CompleteLifecycle` | frontend/electron/main.js:761-767 | Only the asked renderer's answer to the pending request counts. |
| `Lifecycle.MainProcess.PrepareLifecycle` | frontend/electron/main.js:768-784 | Goes ahead at once without a renderer that announced itself; shares a pending request; otherwise asks. |
| `Lifecycle.MainProcess.WindowDestroyed` | frontend/electron/main.js:777-783 | A pending request of a destroyed renderer is declined. |
| `Lifecycle.MainProcess.BeforeQuit` | frontend/electron/main.js:785-810 | Asks first, then drains the archives, then stops the backend, then drains the log, and prevents the quit at every stage but the last. |
| `LineReader.SplitConcat` | frontend/electron/main.js:416-418 | Splitting text in two steps, carrying the unterminated tail over, is splitting the whole; the carriage return and its newline may fall on either side. |
| `LineReader.JoinSplit` | frontend/electron/main.js:417-417 | Any text is its lines, each followed by a newline or a carriage return and a newline, and then its tail. |
| `LineReader.SplitJoin` | frontend/electron/main.js:417-417 | And splitting gives exactly those lines back. |
| `LineReader.TwoChunks` | frontend/electron/main.js:415-441 | Handling two chunks is handling their concatenation. |
| `LineReader.ChunksAreWhole` | frontend/electron/main.js:415-441 | For every way of cutting the output into chunks, lines handled, tail and outcome are those of the whole text. |
| `LineReader.ReaderOutcome` | frontend/electron/main.js:401-441 | The start is reported at most once, with the outcome of the first ready line of the whole output. |
| `LineReader.ReadyReports` | frontend/electron/main.js:425-439 | A ready line reports the address in its payload, or a failure when it has none, unless something was reported before. |
| `LineReader.Backend.Report` | frontend/electron/main.js:401-413 | The first outcome is kept; later ones change nothing. |
| `LineReader.Backend.Output` | frontend/electron/main.js:415-441 | Handles exactly the complete lines, as the transition says. |
| `ShellQuote.QuoteReads` | frontend/electron/main.js:1108-1110 | Wherever it stands in a command line, a quoted value extends the word being read by exactly that value. |
| `ShellQuote.QuoteRoundTrip` | frontend/electron/main.js:1108-1110 | Quote removal by sections 2.2.2 and 2.2.3 of the POSIX.1-2017 Shell Command Language gives back one word equal to the value. |
| `ShellQuote.QuoteLineRoundTrip` | frontend/electron/main.js:1108-1110 | Quoted arguments on one line come back as the same list. |
| `RestartLimiter.AtMostThreeInAnHour` | frontend/electron/main.js:320-332 | For crash times that never decrease, any four reloads span more than an hour. |
| `RestartLimiter.FoundOldBetween` | frontend/electron/main.js:320-332 | Whatever the clock reads, also when it is set back: before the third reload after any one, some crash found that one more than an hour old. |
| `RestartLimiter.ClockSetBack` | frontend/electron/main.js:325-329 | With a clock that was set back, four reloads can lie within twenty minutes of what it reads. |
| `RestartLimiter.RefusedExactly` | frontend/electron/main.js:326-328 | For crash times that never decrease, a crash is refused if and only if three reloads lie in the hour before it. |
| `RestartLimiter.Renderer.Gone` | frontend/electron/main.js:323-332 | Grants the reload exactly when the limiter allows it and records it. |
| `Speech.FinalLinesExactly` | frontend/native/macos/RaticodeSpeech.swift:112-155 | In every run the `final` lines are the trimmed non-empty last words of each segment in order, where a segment's words depend on its own callbacks alone. |
| `Speech.PartialLinesExactly` | frontend/native/macos/RaticodeSpeech.swift:112-122 | In every run the `partial` lines are exactly the texts heard, not yet finally, in the segment that was live, as they came. |
| `Speech.SegmentsFollow` | frontend/native/macos/RaticodeSpeech.swift:112-155 | While input comes a finished segment is followed by a new live one without words; after its end the helper exits. |
| `Speech.DeadlineEnds` | frontend/native/macos/RaticodeSpeech.swift:156-176 | The end of the input gives the live segment a deadline; when that passes, the words it has are committed and the helper exits. |
| `Speech.LiveUntilExit` | frontend/native/macos/RaticodeSpeech.swift:96-176 | A request is live at every point until exit; `done` or an error comes at most once, last, exactly on exit, and `done` only after the input ended. |
| `Speech.GivesUpAfterFive` | frontend/native/macos/RaticodeSpeech.swift:123-136 | Recognition fails only after five segments in a row failed at once, and never passes five while input is coming. |
| `Speech.OtherSegment` | frontend/native/macos/RaticodeSpeech.swift:112-113 | A callback of one segment says nothing about another. |
| `Speech.ReadInput` | frontend/native/macos/RaticodeSpeech.swift:192-212 | The buffers handed on are the whole samples of the byte stream up to its end, in order and none empty, however the reads cut it. |
| `Speech.SampleAt` | frontend/native/macos/RaticodeSpeech.swift:192-212 | Sample k of the stream is its bytes 2k and 2k + 1, the low byte first, as a signed number. |
| `Speech.Dictation.CommitRequest` | frontend/native/macos/RaticodeSpeech.swift:145-155 | Finishes after the end of input, otherwise goes on with a new request. |
| `Speech.Dictation.HandleCallback` | frontend/native/macos/RaticodeSpeech.swift:112-136 | A callback of an earlier segment changes nothing; a final result or an error commits the segment, the fifth quick failure gives up. |
| `Speech.Dictation.LastWordsTimeout` | frontend/native/macos/RaticodeSpeech.swift:170-175 | Finishes only if the segment that was live is still live. |
| `AuditBatches.Split` | scripts/audit-dependencies.py:18-28 | First fit yields exactly the batches of the k-th occurrences of each normalised name. |
| `AuditBatches.NthKeys` | scripts/audit-dependencies.py:21-28 | A project is in batch k exactly when it has more than k requirements. |
| `AuditBatches.NothingLost` | scripts/audit-dependencies.py:18-28 | The batches hold every requirement exactly as often as the input. |
| `AuditBatches.SameProjectExactly` | scripts/audit-dependencies.py:22-22 | Two names are the same project if and only if they read alike: letter by letter but for case, and separator run by separator run. |
| `AuditBatches.ProjectExactly` | scripts/audit-dependencies.py:22-22 | The project name is what stands before the first double equals sign. |
| `AuditBatches.BatchesAreAccepted` | scripts/audit-dependencies.py:18-28 | No batch repeats a project. |
| `AuditBatches.FewestBatches` | scripts/audit-dependencies.py:18-19 | No other split of the requirements into batches without repeats uses fewer. |
| `AuditBatches.AuditPackages` | scripts/audit-dependencies.py:29-81 | Exit code 0 exactly when every batch has a complete clean report; a report is written exactly when all are complete, and then names exactly the requirements, each audited. |
| `LicenseClosure.ClosedHoldsReachable` | scripts/collect-licenses.py:92-106 | Whatever is reachable lies in every set that holds the roots and is closed under active requirements. |
| `LicenseClosure.NeedsExactly` | scripts/collect-licenses.py:98-105 | A package needs exactly what it declares without a marker, for no extra, or for one of the extras it is wanted with. |
| `LicenseClosure.Expand` | scripts/collect-licenses.py:99-106 | Pushes exactly the active requirements of one package. |
| `LicenseClosure.Required` | scripts/collect-licenses.py:85-106 | Stops; fails exactly when a reachable package is not installed and names one; otherwise it returns exactly the names reachable from the roots, each pair expanded once. |
| `LinkPreviews.Scheduling` | frontend/src/components/ChatSources.jsx:11-29 | In every run at most four fetches are out, each URL is taken at most once in request order, and nothing waits while a slot is free. |
| `LinkPreviews.Conservation` | frontend/src/components/ChatSources.jsx:13-29 | Requests are waiting, being fetched, resolved, or lost to a request that threw, and the four counts add up. |
| `LinkPreviews.AllResolvedExactly` | frontend/src/components/ChatSources.jsx:20-29 | Once every fetch has settled, all requests are resolved if and only if no requested URL fails to encode. |
| `LinkPreviews.ThrowingLoads` | frontend/src/components/ChatSources.jsx:21-24 | Each of up to four URLs that fail to encode takes a slot and keeps it. |
| `LinkPreviews.FourThrowsBlock` | frontend/src/components/ChatSources.jsx:21-27 | With four slots lost nothing is fetched any more, whatever is requested. |
| `LinkPreviews.GoodUrlBlocked` | frontend/src/components/ChatSources.jsx:13-27 | After four such URLs a good one waits for ever. |
| `LinkPreviews.Loader.Pump` | frontend/src/components/ChatSources.jsx:20-29 | Starts waiting requests in order until four slots are taken, or until one throws. |
| `LinkPreviews.Loader.LoadLinkPreview` | frontend/src/components/ChatSources.jsx:13-18 | A URL already requested changes nothing; a new one is queued behind the others and the pump runs. |
| `CopyName.CandidateInjective` | frontend/src/components/CodeFileExplorer.jsx:2168-2179 | Different indices give different names. |
| `CopyName.TakenBound` | frontend/src/components/CodeFileExplorer.jsx:2174-2177 | If the first n candidates are taken, at least n names exist. |
| `CopyName.NextCopyName` | frontend/src/components/CodeFileExplorer.jsx:2168-2179 | Stops within one more candidate than there are names, with the unused name of the smallest index. |
| `CopyName.NameParts` | frontend/src/components/CodeFileExplorer.jsx:2169-2171 | Base and extension put together are the name. |
| `CopyName.PartsExactly` | frontend/src/components/CodeFileExplorer.jsx:2169-2171 | Any name is cut in exactly one way: the extension starts at the last dot, unless that is the first character or there is none. |

## Left out

- Releases: paging of listings (a listing is one atomic call), the wording of release notes (a body is the set of digests marked in it), and the output summary. Run status and attestations are fixed facts.
- Manifests.CreateManifest: digests and sizes of files, the parsed records inside the artifact folders, the run's artifact listing and whether the output directory is empty are inputs; copying the files is not modelled. The version is what `versions()` returned; the agreement of the files it reads is left out.
- ReleaseJobs.GitHub.PublishAgain: nothing else runs between the kill and the rerun; ReleaseRerun.RerunConfirms states it with other jobs in between.
- ReleaseJobs.GitHub.Stage: a staging job that finds the draft it started on already public when it writes the marker is covered by ReleaseProtocol, not by this sequential method.
- Dictation: when a tidy round becomes due (word counts, gaps and pauses) is left to chance: a round may start at any time the code could start one. Notices, error texts, levels and focus are not modelled, nor is sending automatically after a dictation.
- Dictation: between the render that switches the context and the effect that ends the dictation, a callback could still write; the model ends the dictation at the switch.
- Dictation: whether words hold a letter or a digit is a parameter of each round.
- Composer: opening a session (microphone, recognizer, recorder) is one settled or failed promise; AudioSession models what happens inside an open one.
- AudioSession: the wait for the last buffer, silence notices and levels; chunk requests carry blocks, and Resampler says what bytes they become.
- Resampler: float rounding; a rate is an integer.
- EditorSave: switching autosave off, recovery conflicts, managed saving through a callback, and the session store; the git baseline, views and commands.
- Tabs: the split view and the rest of the workspace component.
- Lifecycle.QuitOrder: does not say that a quit that has begun stays past its gate, because a window created meanwhile closes the gate; Lifecycle.StagesNeedGate says where it is passed.
- Lifecycle: restarting the backend (a window it creates is an event that may come at any time), the updater's and the window's own ways to quit, smoke tests, and what closing browsers and terminals does.
- LineReader: decoding bytes to text, and the contents of a ready message beyond whether it gives a port.
- ShellQuote: a value is a string without NUL, as an argument of a command must be.
- RestartLimiter: the delay before a reload.
- Speech: the recognizer, audio formats and the status command; trimming is a parameter.
- AuditBatches: Unicode lower-casing; the tool's run is a report per batch.
- LicenseClosure: evaluating markers is a property of a requirement and an extra; reviewing and copying license files.
- LinkPreviews: what a preview shows; both outcomes of a fetch resolve its request.
- CopyName: the rest of the file explorer.
- The workflow executor, the swarm runtime, the Rattish compiler, version comparison, branding and packaging scripts, and the user interface: not modelled.
