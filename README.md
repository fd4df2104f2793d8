# my_utils data-preparation tools, modelled in Dafny

This project models the speech-data tools of the `my_utils` repository, a collection of scripts that
prepare ASR training directories in the Kaldi/WeNet layout: `wav.scp` (utterance id → audio path),
`text` (utterance id → transcript) and `data.list` (one JSON record `{key, wav, txt}` per line).

- **The interferer-mixing augmenter** (augment_data_2.py):
  - manifest reading;
  - startup validation;
  - the per-utterance pipeline: VAD spans, a per-copy seed, background and interferer mixing rewriting only the spans, peak normalisation, `_aug{N}` naming;
  - the output manifests.

  The signal arithmetic is a record of functions supplied by the caller. What is modelled exactly is everything around it: lengths, windows, tiling, placement, clamping and naming.
- **The older augmenter** (augment_data.py): line triples, requested copies and the three output manifests.
- **Fine-tuning preparation** (prepare_tuning_data.py): duration statistics from utterance ids, the greedy duration-budget match over a shuffle, the merged and shuffled manifests, and `data.list`.
- **The manifest tools**:
  - `data.list` writers with an hour limit (the two `scp-text-list.py`);
  - the `wav.scp`/`text` checker (check_audio_wenet.py);
  - the count checker (check_train_data.py);
  - transcript cleaners (clean-text.py, norm-text.py);
  - total-duration counters (total_time.py, audio_total_time.py).
- **The TextGrid tools**: segment cutting with success/failure statistics (textgrid-to-train-data.py, process-textgrid.py), and tier text extraction with a comparison report (compare-diff-result-textgrid.py, extract-txtgrid.py, processtxt.py).
- **SenseVoice post-processing** (sensevoice.py): the emotion tag, the CJK suffix and emoji removal.
- **The PCM-to-WAV converter** (pcm2wav.cc): the 44-byte RIFF/WAVE header, as the WAVE form of the Microsoft/IBM Multimedia Programming Interface and Data Specifications 1.0 lays it out, followed by the PCM bytes.

Python's string and number built-ins are modelled once, in `PyStr`, `Digits` and `PyNum`:
- `strip`, `split`, `split(maxsplit=1)`, `split(sep, 1)`, `find`, `replace`;
- `os.path.join`, `os.path.basename`;
- `int()`, `str()`, `round`.

The same goes for:
- the id-time regexes (`IdTimes`);
- the random generators (`Rng`): a stream of words that the seed determines, with each draw's documented range proved;
- generic loop shapes (`Seqs`): filter-map, first-error-wins collection, dict building with later keys winning.

Durations are integer milliseconds throughout. Where the scripts multiply by 0.001 or divide by 1000, the model keeps milliseconds and compares with bounds scaled to milliseconds.

Files are strings. Iterating a file yields its lines, each up to and including its newline (`PyFile.Lines`), and `writelines` writes its strings with nothing added, so a written line without a newline runs on into the next when the file is read back. Whether a file exists, loads or is written, foreign libraries and model calls are parameters.

`read_scp` of augment_data_2.py splits with `maxsplit=1`, so a line of three or more tokens is kept, with the rest of the line as its path.

## Model

| member | source | states |
|---|---|---|
| AugSignal.TileTo | augment_data_2.py:129-131 | `np.tile(seg, reps)[:n]`: exactly `n` samples for a nonempty signal, nothing for an empty one; starts with the signal, repeats with its period, and holds only its samples |
| AugSignal.TileToPrefix | augment_data_2.py:129-131 | tiling a signal already at least `n` long keeps its first `n` samples |
| AugSignal.NeedSrc | augment_data_2.py:117 | the number of source frames to read is positive for a positive target and equals the target length when the rates agree |
| AugSignal.ReadWindow | augment_data_2.py:118-124 | a file of at least `need` frames gives a contiguous window of exactly `need` frames; a shorter file is read whole, with no draw |
| AugSignal.ClipUnit | augment_data_2.py:126 | `np.clip(seg, -1, 1)`: same length, every sample in `[-1, 1]`, samples already in range unchanged |
| AugSignal.ClipWindow | augment_data_2.py:119-126 | clipping a window of the file gives a window of the clipped file |
| AugSignal.FitRandom | augment_data_2.py:129-134 | the second length fix gives exactly `n` samples: a short segment is tiled (no draw), a long one yields a window of it, one of the right length is kept |
| AugSignal.LoadRandomSegment | augment_data_2.py:111-135 | an unreadable file raises IOError with nothing drawn; otherwise exactly `targetLen` samples, zeros for a file with no frames, and every sample in `[-1, 1]` when no resampling happens |
| AugSignal.LoadRandomSegmentWindow | augment_data_2.py:118-134 | at the target rate, a file at least `targetLen` long yields a contiguous window of the clipped file |
| AugSignal.LoadRandomSegmentTiled | augment_data_2.py:123-131 | at the target rate, a nonempty file shorter than `targetLen` yields the clipped file tiled to `targetLen`, with no draw |
| AugSignal.PlaceWithOffset | augment_data_2.py:155-158 | the start offset is non-negative, keeps `[start, start + segLen)` inside `[0, L)` when the segment fits, and is 0 with no draw when it does not |
| AugSignal.LoadRandomRir | augment_data_2.py:137-142 | an unreadable response raises IOError, an empty one ValueError (`np.max` of nothing); otherwise a nonempty response whose every sample is below 1 in magnitude |
| AugSignal.ConvolveRir | augment_data_2.py:95-97 | an empty response leaves the signal unchanged |
| AugSignal.AddScaled | augment_data_2.py:152 | numpy broadcasting of `a + gain * b`: equal lengths add elementwise, lengths that differ with neither equal to 1 raise ValueError |
| AugSignal.MixAtRatio | augment_data_2.py:144-153 | a silent secondary leaves the speech unchanged; a nonempty secondary no longer than the speech is tiled and added elementwise with the gain, keeping the speech length; an empty secondary raises ZeroDivisionError; a longer one raises ValueError |
| AugSignal.MixSameLength | augment_data_2.py:205-216 | mixing a secondary of the speech's length (as the interference sum always is) never fails and keeps the length |
| AugSignal.PeakNormalize | augment_data_2.py:105-109 | an empty signal raises ValueError; otherwise the length is kept, and a signal whose peak plus 1e-12 is at most 1 is returned unchanged |
| AugSignal.PeakNormalizeBound | augment_data_2.py:105-109 | after normalisation every sample is below 1 in magnitude or at most the margin |
| AugSignal.SegMsToSamples | augment_data_2.py:249-258 | the sample span satisfies `0 <= s <= e <= total`, and the rounded start and end are kept whenever they are already in range |
| AugInterference.Superpose | augment_data_2.py:162-202 | the buffer holding every placement added into `np.zeros(L)` has exactly `L` samples |
| AugInterference.SuperposeUncovered | augment_data_2.py:162-202 | a sample that no interferer covers stays silent |
| AugInterference.SuperposeOnly | augment_data_2.py:202 | a sample that exactly one interferer covers equals that interferer's sample at the matching offset |
| AugInterference.SegLen | augment_data_2.py:166 | `int(np.clip(int(frac * L), 1, L))` lies in `[1, L]` for a nonempty buffer and keeps the truncated value when it is already in range |
| AugInterference.FilterStep | augment_data_2.py:181-186 | the optional band-pass or low-pass step keeps the interferer's length |
| AugInterference.RirStep | augment_data_2.py:188-192 | without a response list the interferer is unchanged and nothing is drawn |
| AugInterference.FitTruncate | augment_data_2.py:194-199 | the last length fix gives exactly `seg_len` samples: a long signal keeps its first `seg_len`, a short nonempty one is tiled |
| AugInterference.Interferer | augment_data_2.py:165-202 | one pass: an empty pool raises ValueError, a pool of unreadable files raises IOError, and a placement that succeeds lies inside the buffer |
| AugInterference.Passes | augment_data_2.py:164-202 | the first `k` passes, when none raised, give exactly `k` placements |
| AugInterference.PassesFit | augment_data_2.py:164-202 | every placement the passes keep lies inside the buffer when every single pass's does |
| AugInterference.PlacementsShape | augment_data_2.py:160-203 | `K` is drawn from `[1, max_interferers]`: ValueError when `max_interferers < 1` or the pool is empty; on success between 1 and `max_interferers` placements, each inside the buffer |
| AugInterference.BuildInterferenceSum | augment_data_2.py:160-203 | `build_interference_sum` returns the superposition of the drawn placements, or the error of the pass that raised, and the generator after all draws |
| AugInterference.SumPasses | augment_data_2.py:162-203 | the `for _ in range(K)` loop over a zero buffer, for any loop body, returns the superposition of the passes' placements or the first error |
| AugInterference.AddInto | augment_data_2.py:202 | `out[start:start + seg_len] += raw` turns the superposition of the placements so far into that of one more |
| AugManifest.ScpFieldsMeaning | augment_data_2.py:19-26 | `ln.split(maxsplit=1)` of a stripped line: nothing for a blank line, a single field for one token, otherwise the first token and the rest after the whitespace that follows it |
| AugManifest.ScpEntryMeaning | augment_data_2.py:15-27 | a line is kept exactly when, stripped, it is nonempty, does not start with `#` and has at least two tokens; its entry is the first token and the rest of the line |
| AugManifest.ScpPairsAppend | augment_data_2.py:15-27 | entries come out in file order: the entries of two concatenated files are those of the first followed by those of the second |
| AugManifest.ScpPairsMembers | augment_data_2.py:15-27 | a pair is an entry exactly when some line of the file gives it |
| AugManifest.ReadScp | augment_data_2.py:15-27 | `read_scp`'s loop returns exactly the entries of the kept lines, in order |
| AugManifest.TextEntryFails | augment_data_2.py:33-40 | a single line raises IndexError exactly when, with its newlines stripped, it is nonempty, does not start with `#`, and holds only whitespace (`split()` then gives nothing to index) |
| AugManifest.TextMapFails | augment_data_2.py:29-42 | `read_text` raises IndexError exactly when some line is whitespace-only in that sense |
| AugManifest.TextMapLastWins | augment_data_2.py:41 | the transcript kept for an id is the one on the last line that names it |
| AugManifest.ReadText | augment_data_2.py:29-42 | `read_text`'s loop returns the id-to-transcript dict or the IndexError the lines determine |
| AugManifest.WriteManifests | augment_data_2.py:399-402 | one `wav.scp` line and one `text` line per result, the k-th of each built from the k-th result |
| AugManifest.ManifestsAligned | augment_data_2.py:399-402 | the k-th `wav.scp` line and the k-th `text` line both start with the k-th result's id |
| AugPipeline.Validate | augment_data_2.py:262-269 | the run passes the argument checks exactly when `copies >= 1`, `sir_min <= sir_max`, `snr_min <= snr_max` and `0 <= overlap_min <= overlap_max <= 1`; a bad `copies` is reported first, then a bad SIR range |
| AugPipeline.Start | augment_data_2.py:262-293 | a run that gets past start-up has valid arguments, a nonempty training list, a nonempty transcript dict and a nonempty interferer list |
| AugPipeline.StartEmptyManifests | augment_data_2.py:282-290 | with valid arguments and readable manifests, the run stops early exactly when the training list, the transcript dict or the interferer list is empty, each with its own reason, in that order |
| AugPipeline.BackgroundStep | augment_data_2.py:342-350 | the background step keeps the span's length, and without background files leaves the span unchanged and draws nothing |
| AugPipeline.SpanMix | augment_data_2.py:340-366 | mixing background and interferers into a span keeps its length, including when building the interference sum raises |
| AugPipeline.ProcessSpan | augment_data_2.py:340-366 | the span loop's body returns the span mixed as `SpanMix` specifies, and the generator after its draws |
| AugPipeline.ApplySpan | augment_data_2.py:337-366 | processing one span keeps the buffer's length, changes no sample outside `[s, e)`, and skips an empty span without drawing |
| AugPipeline.CopyMix | augment_data_2.py:337-366 | processing a copy's spans in order keeps the buffer's length |
| AugPipeline.CopyMixOutside | augment_data_2.py:337-366 | before peak normalisation, a sample outside every span is the speech sample it started as |
| AugPipeline.MixCopy | augment_data_2.py:337-366 | the span loop on the copy's array leaves it holding the samples `CopyMix` specifies |
| AugPipeline.MixSpan | augment_data_2.py:338-366 | one pass of the span loop replaces `[s, e)` of the array by its mix and leaves it as it was for an empty span |
| AugPipeline.WriteBack | augment_data_2.py:366 | `mixed[start:end] = seg_view` replaces exactly the samples from `start` on by the view and keeps the rest |
| AugPipeline.AugNameInjective | augment_data_2.py:369-380 | different copies of an utterance get different ids `utt_aug{c+1}` |
| AugPipeline.SpansOf | augment_data_2.py:322-330 | the spans satisfy `0 <= s <= e <= L` and are never empty; a VAD that raised or found nothing gives the single span `(0, L)` |
| AugPipeline.Prepare | augment_data_2.py:303-330 | an utterance gets copies exactly when it has a transcript and its audio is readable and nonempty; it then carries that transcript, the speech's length and valid spans |
| AugPipeline.MixedCopy | augment_data_2.py:335-367 | the mixed copy, before normalisation, has the speech's length |
| AugPipeline.CopySeed | augment_data_2.py:332-336 | copy `c` draws only from the generator seeded with `base_seed + c + 1`: random streams that agree on that seed give the same copy |
| AugPipeline.ProcessOneSeeds | augment_data_2.py:332-336 | the copies of the `idx`-th utterance depend on the random streams only through the seeds `seed + idx * 1315423911 + c + 1`, `c < copies`, so a rerun with the same seed reproduces them whatever the scheduling |
| AugPipeline.CopyOutcome | augment_data_2.py:368-381 | a written copy is named `utt_aug{c+1}`, lies at `out_dir/wav/utt_aug{c+1}.wav`, carries the utterance's transcript and has the speech's length |
| AugPipeline.CopyOutcomeAudio | augment_data_2.py:368-374 | the samples written are the mixed copy, peak-normalised |
| AugPipeline.CopyPeak | augment_data_2.py:368 | every written sample is below 1 in magnitude or at most `peak_margin` |
| AugPipeline.CopiesShape | augment_data_2.py:332-382 | at most `copies` copies per utterance, with pairwise different ids, each named after a copy number below `copies`, with the transcript and the speech's length |
| AugPipeline.ProcessOneCopies | augment_data_2.py:303-382 | what `process_one` returns: at most `copies` entries with pairwise different ids `utt_aug{c+1}`, each with the utterance's transcript and as many samples as its audio |
| AugPipeline.CopiesPeak | augment_data_2.py:368-381 | every sample of every copy is below 1 in magnitude or at most `peak_margin` |
| AugPipeline.ProcessOnePeak | augment_data_2.py:303-382 | every sample `process_one` writes is below 1 in magnitude or at most `peak_margin` |
| AugPipeline.ProduceCopy | augment_data_2.py:335-381 | one pass of the copy loop (fresh buffer, span loop, normalisation, write) gives the copy `CopyOutcome` specifies |
| AugPipeline.ProduceCopies | augment_data_2.py:332-382 | the copy loop gives the written copies in copy order, or ValueError for a negative seed |
| AugPipeline.ProcessOne | augment_data_2.py:303-382 | `process_one` returns what `ProcessOneSpec` specifies |
| AugPipeline.Finish | augment_data_2.py:399-402 | one `wav.scp` line and one `text` line per gathered copy, the k-th of each built from the k-th copy |
| AugPipeline.RunManifests | augment_data_2.py:384-402 | a finished run lists one `wav.scp` and one `text` line per written copy, in gathering order; a run stopped at start-up writes nothing and reports its reason |
| AugPipeline.GatherOrderIrrelevant | augment_data_2.py:388-397 | gathering the same jobs in two completion orders: both succeed or both fail, and on success they hold the same copies |
| AugPipeline.RunOrderIrrelevant | augment_data_2.py:388-402 | the order in which workers finish decides only the order of the manifest lines, not whether the run completes nor which copies it lists |
| AugPipeline.OrderOk | augment_data_2.py:391-394 | gathering in any completion order succeeds exactly when every job succeeds |
| AugPipeline.ReadScpFile | augment_data_2.py:282 | `read_scp` of a path of the run gives its entries, or IOError when it cannot be opened |
| AugPipeline.ReadOptionalScp | augment_data_2.py:292-293 | `read_scp(p) if p else []`: an option not given yields no entries, a given one its file's entries or IOError |
| AugPipeline.ReadInputs | augment_data_2.py:262-293 | the start of `main` stops or proceeds exactly as `Start` specifies |
| AugPipeline.Gather | augment_data_2.py:386-397 | the collection loop returns the futures' results concatenated in completion order, or the first exception |
| AugPipeline.Run | augment_data_2.py:260-404 | `main` produces the outcome `RunSpec` specifies |
| AugmentData.SpeedUp | augment_data.py:24-28 | a segment shorter than `min_duration` seconds is returned unchanged; any other is sped up |
| AugmentData.SpeedUpGuardUnused | augment_data.py:24-28 | since only audio of at least a second reaches `speed_up`, its 0.15 s guard never applies there: the copy is always the sped-up segment |
| AugmentData.Requested | augment_data.py:51-67 | at most three copies are requested |
| AugmentData.RequestedIsFilter | augment_data.py:51-67 | the copies made are the fixed order noise, fast, slow filtered by `augment_types` |
| AugmentData.RequestedMembers | augment_data.py:51-67 | a copy is made exactly when its type is noise, fast or slow and is among `augment_types` |
| AugmentData.RequestedOrderFree | augment_data.py:51-67 | the order of `augment_types`, and any other type in it, does not change which copies are made nor their order |
| AugmentData.ProcessAudio | augment_data.py:43-69 | `process_audio` fails when the input cannot be loaded or when one of the requested exports fails (the `except` at lines 106-108 then catches it); otherwise it returns the copies `AudioOut` specifies, every export written |
| AugmentData.ExportFails | augment_data.py:54-66 | an export of a requested copy that fails is one of the exports `AudioOut` lists, so they are not all written |
| AugmentData.AddCopy | augment_data.py:51-67 | one `if 'x' in augment_types:` block fails exactly when its type is asked for and its export is not written; otherwise it appends that copy's path and export to those of the earlier blocks when asked for, and nothing when not, every export so far written |
| AugmentData.ShortAudioNoCopies | augment_data.py:46-48 | audio under a second gets no copies, whatever was asked for |
| AugmentData.AudioOutFiles | augment_data.py:50-69 | for audio of a second or more: one file per requested copy in the fixed order, with pairwise different types, each at `{aug}_{key}.wav` in the output directory and holding that effect applied to the audio; the order of `augment_types` does not matter |
| AugmentData.AugScp | augment_data.py:96-97 | one `wav.scp` entry per copy |
| AugmentData.AugText | augment_data.py:96-98 | one `text` entry per copy |
| AugmentData.HandleLine | augment_data.py:71-108 | `handle_line` gives what `Handle` specifies: the entries of a usable line triple whose copies are all exported, or `None` |
| AugmentData.HandleEntry | augment_data.py:87-108 | the part of `handle_line` after parsing gives what `HandleObj` specifies, `None` included when loading or an export fails |
| AugmentData.BuildEntries | augment_data.py:94-104 | the entry loop gives one `wav.scp` and one `text` entry per copy, then the original's |
| AugmentData.HandleNone | augment_data.py:73-108 | a triple is skipped exactly when the `wav.scp` line or the `text` line does not split into two fields, the `data.list` line is no JSON object, or that object lacks a field, names an unreadable wav or gives a copy whose export fails |
| AugmentData.HandleObjNone | augment_data.py:87-108 | after parsing, the triple is skipped exactly when the `data.list` object is unusable: a key missing, the wav unreadable or an export failing |
| AugmentData.EntriesAligned | augment_data.py:94-102 | the entries number one more than the copies and go in pairs with the same id: `{aug}_{wav_key}` with the copy's path for each copy, then `wav_key` with its path, all with the transcript |
| AugmentData.HandleSome | augment_data.py:79-98 | a handled triple takes its ids and path from `wav.scp`, the copies' names from `data.list`'s `key`, the audio from its `wav` and the transcript from its `txt`, and every copy was exported |
| AugmentData.HandleFormed | augment_data.py:71-104 | every triple `handle_line` keeps is formed as `Formed` states: aligned `wav.scp` and `text` entries, at most three copies, the original last |
| AugmentData.TextLineUnused | augment_data.py:81-98 | only the shape of the `text` line matters: any two lines that split into two fields give the same result, since the transcript comes from `data.list` |
| AugmentData.ShortAudioOriginalOnly | augment_data.py:46-48 | audio under a second is listed only as itself, with nothing exported |
| AugmentData.AugRecords | augment_data.py:157-159 | one `data.list` record per copy |
| AugmentData.Records | augment_data.py:155-159 | a handled triple writes one `data.list` record more than it has copies |
| AugmentData.Zip3 | augment_data.py:138-139 | `zip` of the three line lists is as long as the shortest and pairs the k-th lines |
| AugmentData.AugmentDataRun | augment_data.py:131-159 | `augment_data` reports the consistency check, handles each line triple in order and writes what `Augmented` specifies |
| AugmentData.WriteResult | augment_data.py:147-159 | the result loop's body appends the triple's `wav.scp` entries, its `text` entries, then the original's `data.list` record and one per copy |
| AugmentData.EmitAppend | augment_data.py:141-159 | writing two result lists one after the other writes their concatenation: results keep their order in all four outputs |
| AugmentData.RecordsRotate | augment_data.py:147-159 | a triple's `data.list` records list its `wav.scp` entries rotated by one, the original first there and last in `wav.scp`, each with the transcript |
| AugmentData.HandledFormed | augment_data.py:141-144 | every result the pool hands back is formed as `Formed` states |
| AugmentData.EmitCounts | augment_data.py:141-159 | formed results write as many `wav.scp` lines as `text` lines as `data.list` records, between one and four per result |
| AugmentData.AugmentedCounts | augment_data.py:141-159 | the three output manifests of a run have the same length, between one and four lines per handled triple |
| AugmentData.ZipIgnoresExtra | augment_data.py:135-141 | lines past the end of the shortest input are never used, and the run reports what `check_data_consistency` reports |
| CheckTrainData.CheckDataConsistency | check_train_data.py:12-21 | the three files are reported inconsistent, with their three line counts, exactly when the counts are not all equal, and consistent exactly when they are |
| CheckTrainData.BlankLineCounts | check_train_data.py:35-39 | counts are of raw lines: adding a blank line to one file alone makes a consistent set inconsistent |
| CleanText.CleanTextFile | process_text/clean-text.py:8-13 | the loop writes exactly the lines that pass the test, unchanged and in order |
| CleanText.KeepEntry | process_text/clean-text.py:10-12 | a line `id transcript` is kept exactly when the transcript is longer than one character |
| CleanText.FewTokensDropped | process_text/clean-text.py:10-12 | a line with fewer than two fields after stripping is dropped |
| CleanText.CleanMembers | process_text/clean-text.py:13 | a line is in the output exactly when it is an input line that passes the test |
| CleanText.CleanKeepsOrder | process_text/clean-text.py:8-13 | the output is a subsequence of the input: kept lines keep their order |
| CleanText.CleanIdempotent | process_text/clean-text.py:8-13 | cleaning a cleaned file changes nothing |
| TotalTime.WavScpTotal | process_audio/audio_total_time.py:10-22 | `__wavscp` reports the line count and the summed durations `TotalsOf` specifies, or the first line's error |
| TotalTime.SumLines | total_time.py:9-15 | the loop accumulating `total_time` line by line gives the count and total of `TotalsOf`, or the first error |
| TotalTime.IdDurationOfFields | total_time.py:13-14 | an id of dash-free fields whose second- and third-to-last are numerals encodes the second-to-last minus the third-to-last, in milliseconds |
| TotalTime.IdTooShort | total_time.py:13-14 | an id with fewer than three dash-separated fields raises IndexError or ValueError |
| TotalTime.LineShape | total_time.py:11-12 | a line raises AssertionError exactly when it does not split into exactly two fields (a blank line, one field, or a path with a space) |
| TotalTime.LineOfEntry | total_time.py:11-14 | a manifest line `id path` with its newline yields the duration its id encodes |
| TotalTime.TotalsMeaning | total_time.py:5-17 | the run succeeds exactly when every line does, and then reports one entry per line and the sum of the lines' durations |
| TotalTime.TotalsFirstError | total_time.py:10-15 | a run that fails reports the error of the first bad line, every earlier line being fine |
| TotalTime.TotalsAppend | total_time.py:9-15 | the count and total over two files read one after the other are the sums of their counts and totals |
| CheckAudioWenet.KeyTimes | process_audio/check_audio_wenet.py:11 | a match of `-(\d+)-(\d+)(?:-[A-Za-z0-9]*)?$` captures two numerals |
| CheckAudioWenet.DurationFromKey | process_audio/check_audio_wenet.py:10-25 | an id has a duration exactly when the pattern matches and the end exceeds the start; the duration is then positive |
| CheckAudioWenet.LeftmostExample | process_audio/check_audio_wenet.py:11-19 | `re.search` takes the leftmost match: `x-1-2-3` reads start 1 and end 2, duration 1 ms, the `-3` being the optional tag |
| CheckAudioWenet.DurationOf | process_audio/check_audio_wenet.py:10-19 | an id `base-start-end` with an optional `-tag` has duration end minus start when that is positive, and none otherwise |
| CheckAudioWenet.WavItem | process_audio/check_audio_wenet.py:34-47 | a line that counts towards the total has a positive duration |
| CheckAudioWenet.CheckWavScp | process_audio/check_audio_wenet.py:27-57 | `check_wav_scp` counts every line, totals the durations of the lines with one, lists the out-of-range ones in order, and passes exactly when that list is empty |
| CheckAudioWenet.ScanDurations | process_audio/check_audio_wenet.py:34-50 | the loop totals the durations of the lines that give one and lists, in order, those outside `[min, max]` |
| CheckAudioWenet.WavOk | process_audio/check_audio_wenet.py:49-57 | the file passes exactly when every duration read lies in `[min_length, max_length]` |
| CheckAudioWenet.WavItemsMembers | process_audio/check_audio_wenet.py:34-47 | an `(id, duration)` is read exactly when some line gives it |
| CheckAudioWenet.WavItemOf | process_audio/check_audio_wenet.py:35-45 | a line `id path` gives its id and the id's duration when there is one, and nothing otherwise |
| CheckAudioWenet.WavShortLine | process_audio/check_audio_wenet.py:35-38 | a line with fewer than two fields is skipped |
| CheckAudioWenet.TextItem | process_audio/check_audio_wenet.py:68-77 | a line is well formed exactly when it splits into an id and a rest, and then gives the id and the rest's token count |
| CheckAudioWenet.CheckTextFile | process_audio/check_audio_wenet.py:59-96 | `check_text_file` counts every line, lists the malformed lines with their 1-based numbers and the out-of-range token counts, and passes exactly when both lists are empty |
| CheckAudioWenet.ScanTexts | process_audio/check_audio_wenet.py:67-80 | the `enumerate(texts, start=1)` loop gives the format errors and the out-of-range entries `Rejected` and `OutOfBounds` specify |
| CheckAudioWenet.RejectedMembers | process_audio/check_audio_wenet.py:67-73 | `(k, t)` is a format error exactly when line `k` (counted from 1) is malformed and `t` is that line stripped |
| CheckAudioWenet.OutOfBoundsMembers | process_audio/check_audio_wenet.py:75-80 | an entry is reported exactly when some well-formed line gives it with a count outside `[lo, hi]` |
| CheckAudioWenet.ScanOk | process_audio/check_audio_wenet.py:96 | both lists are empty exactly when every line is well formed with a count in `[lo, hi]` |
| CheckAudioWenet.FormatErrorsMembers | process_audio/check_audio_wenet.py:70-72 | `(k, t)` is a format error exactly when line `k` lacks two fields and `t` is that line stripped |
| CheckAudioWenet.InvalidTextsMembers | process_audio/check_audio_wenet.py:76-80 | `(id, n)` is reported exactly when some line gives id `id` and token count `n` outside the bounds |
| CheckAudioWenet.TextOk | process_audio/check_audio_wenet.py:96 | the text file passes exactly when every line is well formed with a token count within the bounds |
| CheckAudioWenet.WordCount | process_audio/check_audio_wenet.py:76-77 | tokens are whitespace-separated words: `id w1 w2` counts 2 tokens |
| CheckAudioWenet.CheckDirectory | process_audio/check_audio_wenet.py:97-117 | a missing `wav.scp` or `text` ends the check before either file is read; otherwise both reports are made and all is well exactly when both pass |
| IdTimes.DigitRun | process_audio/check_audio_wenet.py:11 | `\d+` matches greedily: the run of digits from a position ends at the first non-digit |
| IdTimes.MatchAt | prepare_tuning_data.py:32 | a match of `-(\d+)-(\d+)` at a position captures two nonempty numerals |
| IdTimes.SearchFrom | prepare_tuning_data.py:52 | what `re.search` finds from a position is a pair of numerals |
| IdTimes.Times | process_audio/check_audio_wenet.py:11 | the groups `re.search` returns for the id are numerals |
| IdTimes.SearchLeftmost | process_audio/check_audio_wenet.py:11 | `re.search` returns the match at the leftmost position where the pattern matches |
| IdTimes.SearchNone | prepare_tuning_data.py:32-33 | when the pattern matches at no position, `re.search` finds nothing |
| IdTimes.MatchAtShape | prepare_tuning_data.py:32 | at a position holding `-digits-digits` followed by an accepted tail, the pattern matches and captures exactly those two numerals |
| IdTimes.TimesOf | prepare_tuning_data.py:32-35 | an id `base-start-end` plus an accepted tail, with no dash in `base`, yields `start` and `end` |
| IdTimes.SearchPrefixFails | process_audio/check_audio_wenet.py:11-14 | a match at `p` with none before it is what `re.search` returns |
| IdTimes.OptionalTagExample | process_audio/check_audio_wenet.py:11 | with the optional tag, `x-1-2-3` yields start 1 and end 2 |
| IdTimes.RequiredTagExample | prepare_tuning_data.py:52 | with the required tag, `x-1-2-3` yields start 1 and end 2 |
| IdTimes.NoTagExample | prepare_tuning_data.py:32 | without a tag the match is anchored at the end: `x-1-2-3` yields start 2 and end 3 |
| IdTimes.RequiredTagMissing | prepare_tuning_data.py:52 | with the required tag, `x-1-2` yields nothing |
| PyNum.Clip | augment_data_2.py:126 | `np.clip`: the result lies in `[lo, hi]`, a value already there is kept, and `hi` wins when the bounds are crossed |
| PyNum.CeilDiv | augment_data_2.py:117 | `ceil(n / d)` is the least `r` with `n <= r * d` |
| PyNum.RoundHalfEven | augment_data_2.py:254-255 | Python's `round(n / d)` is a nearest integer, the even one on a tie |
| PyNum.Trunc | augment_data_2.py:166 | `int(x)` truncates towards zero |
| PyNum.MaxAbs | augment_data_2.py:105 | `np.max(np.abs(x))` bounds every sample's magnitude and is reached by one |
| Rng.Advance | augment_data_2.py:119 | a draw consumes exactly one word of the stream |
| Rng.Integers | augment_data_2.py:119 | `rng.integers(lo, hi)` lies in `[lo, hi)` and consumes one draw |
| Rng.Random | augment_data_2.py:169 | `rng.random()` lies in `[0, 1)` and consumes one draw |
| Rng.Uniform | augment_data_2.py:166 | `rng.uniform(a, b)` lies between `a` and `b`, `a` included and `b` excluded, and consumes one draw |
| Rng.ScaleBounds | augment_data_2.py:166 | scaling a draw from `[0, 1)` by the width `b - a` lands between 0 included and the width excluded, on either sign of the width |
| Rng.Swap | prepare_tuning_data.py:85 | swapping two items exchanges them and keeps the others in place |
| Rng.FisherYatesPermutes | prepare_tuning_data.py:85 | the Fisher–Yates passes permute the list |
| Rng.ShuffledPermutes | prepare_tuning_data.py:117-118 | `random.shuffle` permutes the list and keeps its length |
| Rng.Shuffle | prepare_tuning_data.py:85 | shuffling an array in place leaves it holding `Shuffled` of its old contents, a permutation of them |
| NormText.CleanText | process_text/norm-text.py:7-9 | `text.replace(" ", "")` leaves no space, is no longer than the text, and is the text with its spaces removed |
| NormText.CleanTextAppend | process_text/norm-text.py:7-9 | removing spaces keeps every other character in order: it distributes over concatenation |
| NormText.CleanTextNoSpace | process_text/norm-text.py:7-9 | a transcript without spaces is left unchanged |
| NormText.ReadWavDict | process_text/norm-text.py:13-18 | the first loop builds `wav_dict` from the lines with exactly two fields |
| NormText.OutLine | process_text/norm-text.py:21-32 | a transcript line is written exactly when it has an id and a text and its id, with `.wav` removed, is in `wav_dict` |
| NormText.ProcessFile | process_text/norm-text.py:11-32 | `process_file` writes the transcript lines' outputs in file order, looked up in the dict of the `wav.scp` lines |
| NormText.WavDictKeys | process_text/norm-text.py:14-18 | an id is in `wav_dict` exactly when some `wav.scp` line has exactly that id and a path |
| NormText.WavDictLastWins | process_text/norm-text.py:18 | a later `wav.scp` entry for an id replaces an earlier one |
| NormText.OutLineEntry | process_text/norm-text.py:22-32 | a line `id text` is written as `key cleaned-text` exactly when its lookup key is in `wav_dict` |
| NormText.NoTextSkipped | process_text/norm-text.py:22-24 | a transcript line without a text after its id is skipped |
| NormText.LookupKeyOf | process_text/norm-text.py:29 | an id without `.wav` is looked up as it is, and `base.wav` as `base` when `.wav` occurs only at its end |
| NormText.ProcessFileOrder | process_text/norm-text.py:21-32 | every written line is the output of some transcript line, and only such lines are written |
| Pcm2Wav.U32 | process_audio/pcm2wav.cc:46-48 | conversion to `uint32_t` lands below 2^32 and keeps any value already in range |
| Pcm2Wav.U16 | process_audio/pcm2wav.cc:45 | conversion to `uint16_t` lands below 2^16 and keeps any value already in range |
| Pcm2Wav.FromLEOfLE | process_audio/pcm2wav.cc:56 | a field written as `n` little-endian bytes reads back as its value |
| Pcm2Wav.LEOfFromLE | process_audio/pcm2wav.cc:56 | any `n` bytes are the little-endian encoding of the value they read as |
| Pcm2Wav.Serialize | process_audio/pcm2wav.cc:6-20 | the struct is written as exactly 44 bytes |
| Pcm2Wav.Parse | process_audio/pcm2wav.cc:6-20 | a header read back from 44 bytes with the four fixed tags has every field within its C type |
| Pcm2Wav.ParseSerialize | process_audio/pcm2wav.cc:6-20 | the serialised header reads back as the same header |
| Pcm2Wav.SerializeParse | process_audio/pcm2wav.cc:6-20 | any 44 bytes that read as a header are exactly that header's serialisation |
| Pcm2Wav.BuildHeader | process_audio/pcm2wav.cc:43-48 | `main`'s member assignments over the struct's initialisers give `MakeHeader`, whose fields all fit their C types |
| Pcm2Wav.HeaderFields | process_audio/pcm2wav.cc:43-48 | the header describes mono 16-bit PCM: 2-byte frames, a byte rate of twice the sample rate modulo 2^32, the PCM size as data size, and a RIFF size 36 past it |
| Pcm2Wav.WavFileLayout | process_audio/pcm2wav.cc:40-60 | the file is 44 header bytes describing it followed by the PCM bytes verbatim, and the RIFF size plus 8 is its length modulo 2^32 (exactly, when it fits) |
| Pcm2Wav.Decode | process_audio/pcm2wav.cc:6-20 | the members read back from pieces of the struct's widths fit their C types |
| Pcm2Wav.DecodePieces | process_audio/pcm2wav.cc:6-20 | a header's pieces carry the four fixed tags and decode to that header |
| Pcm2Wav.PiecesDecode | process_audio/pcm2wav.cc:6-20 | tagged pieces of the struct's widths are the pieces of the header they decode to |
| Pcm2Wav.WriteWav | process_audio/pcm2wav.cc:56-60 | the two `write` calls fill a fresh buffer with exactly `WavFile`: the header, then the PCM bytes |
| Pcm2Wav.WriteAt | process_audio/pcm2wav.cc:56-60 | one `write` call puts its bytes at the stream position and leaves every other byte as it was |
| Pcm2Wav.SkipCSpace | process_audio/pcm2wav.cc:32 | `std::stoi` skips leading white space: what remains does not start with it |
| Pcm2Wav.DigitPrefix | process_audio/pcm2wav.cc:32 | the digits `std::stoi` reads are the longest prefix of digits |
| Pcm2Wav.Stoi | process_audio/pcm2wav.cc:32 | `std::stoi` yields only values an `int` holds |
| Pcm2Wav.StoiOfNat | process_audio/pcm2wav.cc:32 | `std::stoi` reads back the decimal numeral of every non-negative `int` |
| Pcm2Wav.StoiNoDigits | process_audio/pcm2wav.cc:32 | a string without digits makes `std::stoi` throw |
| Pcm2Wav.ExitCode | process_audio/pcm2wav.cc:22-71 | `main` returns no status exactly when `std::stoi` threw, and 0 exactly when it converted |
| Pcm2Wav.Run | process_audio/pcm2wav.cc:22-71 | a conversion happens only with an input argument, a readable input and a creatable output |
| Pcm2Wav.RunUsage | process_audio/pcm2wav.cc:23-28 | without an input argument `main` prints its usage and returns 1 |
| Pcm2Wav.RunDefaults | process_audio/pcm2wav.cc:31-32 | with only the input named, the output is `output.wav` at 16000 Hz |
| Pcm2Wav.RunFileErrors | process_audio/pcm2wav.cc:34-54 | an input that cannot be opened or an output that cannot be created returns 1 and writes no WAV |
| Pcm2Wav.RunRate | process_audio/pcm2wav.cc:32 | a sample-rate argument is read by `std::stoi` and stored modulo 2^32 |
| PrepareTuningData.TotalMsStep | prepare_tuning_data.py:39 | adding an utterance to `durations` adds its duration to `total_duration` |
| PrepareTuningData.ScpLine | prepare_tuning_data.py:30-42 | the two-value unpack of `line.strip().split(" ", 1)` raises ValueError exactly when the stripped line has no space; otherwise the line gives at most one utterance, whose id has no space and which rebuilds the stripped line as `id + " " + path` |
| PrepareTuningData.StatisLength0 | prepare_tuning_data.py:25-44 | `statis_project_data_length_0` raises the first unpack error; otherwise it returns the utterances whose id ends in `-start-end`, in order, and a total that is the sum of their durations |
| PrepareTuningData.StatisLength1 | prepare_tuning_data.py:46-63 | `statis_project_data_length_1` returns the utterances whose id ends in `-start-end-tag`, or the first unpack error |
| PrepareTuningData.Gather | prepare_tuning_data.py:30-40 | the line loop stops at the first raising line, and its running total is the sum of the collected durations |
| PrepareTuningData.ScpLineParts | prepare_tuning_data.py:31-40 | a line `id path` contributes the utterance of `id` exactly when the pattern matches the id |
| PrepareTuningData.ScpLineOf | prepare_tuning_data.py:31-40 | an id `base-start-end` followed by a tail the pattern accepts gives duration `end - start` with the whole rest of the line as its path |
| PrepareTuningData.IdTimesOf | prepare_tuning_data.py:32 | the pattern captures the last two numeric fields of such an id |
| PrepareTuningData.SplitOnceAt | prepare_tuning_data.py:31 | `split(" ", 1)` of `id + " " + rest` with a space-free id is `[id, rest]`, even when `rest` holds spaces |
| PrepareTuningData.ScpLineUnmatched | prepare_tuning_data.py:41-42 | a line whose id the pattern rejects is skipped without error |
| PrepareTuningData.DurationsNoSpace | prepare_tuning_data.py:31 | a single line without a space after stripping, a blank line included, makes the whole function raise |
| PrepareTuningData.DurationsMembers | prepare_tuning_data.py:28-40 | the collected durations are exactly the utterances the individual lines give |
| PrepareTuningData.TextEntry | prepare_tuning_data.py:68-76 | a `text` line gives an entry exactly when its stripped form holds a space; the key has no space and `key + " " + text` rebuilds the stripped line |
| PrepareTuningData.LoadTextAsDict | prepare_tuning_data.py:65-78 | the loop builds the dict of the entries of the lines, later lines overwriting earlier ones |
| PrepareTuningData.TextEntryOf | prepare_tuning_data.py:72-74 | a line `id text` maps `id` to the whole rest of the line |
| PrepareTuningData.TextDictKeys | prepare_tuning_data.py:65-78 | an id is a key exactly when some line gives an entry for it |
| PrepareTuningData.TextDictLastWins | prepare_tuning_data.py:74 | the last line giving an entry for an id decides its transcript |
| PrepareTuningData.MatchDurations | prepare_tuning_data.py:81-100 | `match_durations_and_generate_text` raises as `statis_project_data_length_1` does, consuming no randomness; otherwise it returns the greedy match over the shuffled durations and the sum of the matched durations |
| PrepareTuningData.Scan1 | prepare_tuning_data.py:92-97 | the `for` loop with its `break` computes the greedy scan: what it matched and the selected total |
| PrepareTuningData.GreedyStopped | prepare_tuning_data.py:96-97 | after the `break` the remaining durations change nothing |
| PrepareTuningData.GreedySelected | prepare_tuning_data.py:93-95 | `selected_duration` is the sum of the matched durations |
| PrepareTuningData.GreedySubsequence | prepare_tuning_data.py:92-95 | the matched durations are a subsequence of the shuffled ones, in their order |
| PrepareTuningData.GreedyWithin | prepare_tuning_data.py:93 | once anything is matched the selected total never exceeds `target + tolerance` |
| PrepareTuningData.GreedyStop | prepare_tuning_data.py:96 | the loop breaks only once the total has reached `target - tolerance`, and a nonempty run that did not break ends below it |
| PrepareTuningData.MatchedDrawn | prepare_tuning_data.py:85-95 | every matched utterance is drawn from the second directory, none more often than it occurs there |
| PrepareTuningData.ScpLines | prepare_tuning_data.py:112-113 | one `id path` line is written per matched utterance, in order |
| PrepareTuningData.MergeAndShuffle | prepare_tuning_data.py:102-128 | the merged `wav.scp` is a permutation of the original lines plus one line per matched utterance, the merged `text` one of the original lines plus the new transcripts, the two shuffled in that order |
| PrepareTuningData.Combine | prepare_tuning_data.py:103-115 | the combined lists are the originals followed by the new lines, a `text` line only for a matched id with a transcript |
| PrepareTuningData.ShuffleSeq | prepare_tuning_data.py:117-118 | `random.shuffle` returns a permutation of the list |
| PrepareTuningData.TextLinesMembers | prepare_tuning_data.py:114-115 | a new `text` line is written exactly for a matched utterance whose id has a transcript, as `id text` |
| PrepareTuningData.MergedSizes | prepare_tuning_data.py:102-118 | the merged `wav.scp` gains exactly one line per matched utterance, the merged `text` at most one |
| PrepareTuningData.ListLine | prepare_tuning_data.py:146-158 | a `data.list` line raises exactly when the stripped line has no space; otherwise it is written exactly when its id has a transcript, and counted missing otherwise |
| PrepareTuningData.GenerateDataList | prepare_tuning_data.py:139-161 | `generate_data_list` writes the records of the lines and counts total and missing lines, or raises the first unpack error |
| PrepareTuningData.ListLoop | prepare_tuning_data.py:144-158 | the loop writes the records in order, `total_count` counts every line and `missing_count` those counted missing |
| PrepareTuningData.EntriesAndMissing | prepare_tuning_data.py:149-157 | every line is either written or counted missing, never both |
| PrepareTuningData.OutcomesLength | prepare_tuning_data.py:146-148 | each line gives exactly one outcome |
| PrepareTuningData.DataListCounts | prepare_tuning_data.py:144-160 | `total_count == written + missing_count` |
| PrepareTuningData.ListLineOf | prepare_tuning_data.py:147-158 | a line `id path` gives the record `{key: id, wav: path, txt: text_dict[id]}` exactly when the id is in the dict |
| PrepareTuningData.DataListEntries | prepare_tuning_data.py:149-155 | the records written are exactly those of the lines whose id has a transcript |
| PrepareTuningData.GenerateNewWavScpAndText | prepare_tuning_data.py:164-177 | the whole run: both folders checked, durations read, matched, merged and shuffled, the merged lists written, then `data.list` built from the two files read back |
| PrepareTuningData.DataListFails | prepare_tuning_data.py:147 | `generate_data_list` raises exactly when some `wav.scp` line has no space after stripping |
| PrepareTuningData.PreparedFails | prepare_tuning_data.py:14-23 | the run fails exactly when a `wav.scp` or `text` file is missing or a `wav.scp` line of either directory has no space; writing `data.list` over the merged files read back never raises, even where lines run on |
| PrepareTuningData.ReadBackSplit | prepare_tuning_data.py:146-147 | every line read back from written lines that each have a space between non-whitespace has a space after stripping |
| PrepareTuningData.MergedLinesSplit | prepare_tuning_data.py:106-117 | every line of the merged `wav.scp` is a single line with a space between non-whitespace, so it keeps one after stripping even when joined to another |
| PrepareTuningData.ScpOutStrips | prepare_tuning_data.py:113 | the line written for an utterance strips back to the stripped line it was read from |
| PrepareTuningData.ScpOutIsLine | prepare_tuning_data.py:113 | the line written for an utterance holds one newline, at its end |
| PrepareTuningData.PreparedContents | prepare_tuning_data.py:164-177 | on success the merged lists are permutations of the first directory's lines plus those of utterances drawn from the second, and of its `text` lines plus the new transcripts |
| PrepareTuningData.PreparedTotal | prepare_tuning_data.py:143-160 | `total_count` is the number of lines read back from the written `wav.scp`, each written to `data.list` or counted missing |
| PrepareTuningData.PreparedJoins | prepare_tuning_data.py:124-125 | `total_count` plus the written lines that lack a newline (each joined to the next) is the number of original and matched lines |
| PrepareTuningData.ReadBackCount | prepare_tuning_data.py:125 | reading back written lines gives one line per written line less the run-ons |
| PrepareTuningData.PreparedExact | prepare_tuning_data.py:106-160 | when the first `wav.scp` is empty or ends with a newline, `total_count` is exactly its line count plus the number of matched utterances |
| PrepareTuningData.AllTerminated | prepare_tuning_data.py:106-107 | every line `readlines` gives of a file that is empty or ends with a newline ends with one |
| PrepareTuningData.MergedTerminated | prepare_tuning_data.py:106-117 | the merged `wav.scp` lines all end with a newline when the first directory's do |
| SenseVoice.UpperRun | sensevoice.py:12 | `[A-Z]+` matches greedily: the run of capitals ends at the first other character |
| SenseVoice.TagAt | sensevoice.py:12 | a match of `<\|([A-Z]+)\|>` at the front of the text is exactly `<\|TAG\|>` with a nonempty run of capitals as its group |
| SenseVoice.FindTagsFront | sensevoice.py:12-13 | `re.findall` finds a tag written at the front of a text first, then those of the rest |
| SenseVoice.NoTagsWithoutAngle | sensevoice.py:13-16 | a text without `<` holds no tags, so `emotion_tag` returns `None` |
| SenseVoice.FirstIndex | sensevoice.py:18 | the position of a tag's first occurrence holds that tag, and no earlier one does |
| SenseVoice.EmotionTag | sensevoice.py:10-21 | `emotion_tag` returns `None` exactly when no tag is found |
| SenseVoice.MostCommonIsMax | sensevoice.py:18-19 | the most common of the first `n` tags is one of them, none of them is more frequent, and it appears no later than any equally frequent one |
| SenseVoice.EmotionTagMeaning | sensevoice.py:10-21 | a text with tags yields a tag found in it, of maximal count, that first appears no later than any other of that count, as `Counter.most_common(1)` orders ties |
| SenseVoice.FirstHan | sensevoice.py:24 | `re.search("[一-龥]", s)` finds the first CJK ideograph of the text, if any |
| SenseVoice.FormatStrMeaning | sensevoice.py:23-28 | `format_str` is empty exactly when the text has no ideograph; otherwise it is the suffix starting at the first one, and nothing cut off before it is an ideograph |
| SenseVoice.FormatStrIdempotent | sensevoice.py:23-28 | `format_str(format_str(s)) == format_str(s)` |
| SenseVoice.RemoveEmojis | sensevoice.py:30-40 | `emoji_pattern.sub("", text)` leaves no character of the four emoji ranges and never lengthens the text |
| SenseVoice.RemoveEmojisAppend | sensevoice.py:30-40 | emoji removal distributes over concatenation: the kept characters are the non-emoji ones, in order |
| SenseVoice.RemoveEmojisKeeps | sensevoice.py:30-40 | a text without emoji is kept unchanged |
| SenseVoice.RemoveEmojisIdempotent | sensevoice.py:30-40 | removing emoji twice is removing them once |
| SenseVoice.RemoveEmojisMembers | sensevoice.py:30-40 | a character survives exactly when it occurs in the text and is not an emoji |
| TextGridExtract.Region | compare-diff-result-textgrid.py:19-24 | there is no tier region exactly when the `内容层` header does not occur |
| TextGridExtract.RegionMeaning | compare-diff-result-textgrid.py:19-24 | the region starts with the header and runs up to the first `item [2]:` after it; without one it is the rest of the text less its last character |
| TextGridExtract.CutMeaning | compare-diff-result-textgrid.py:24 | the cut begins with the header and, put back together with what follows, gives the text from the header on |
| TextGridExtract.NoItemInMarker | compare-diff-result-textgrid.py:23 | `item [2]:` can only be found after the whole header |
| TextGridExtract.CloseQuote | compare-diff-result-textgrid.py:26 | the lazy `(.*?)"` closes at the first quote, and fails when a newline comes before any quote |
| TextGridExtract.MatchAt | compare-diff-result-textgrid.py:26 | a match attempted at a position needs `text = "` there and closes after it |
| TextGridExtract.QuotedPlain | compare-diff-result-textgrid.py:26 | no text `re.findall` returns holds a quote or a newline |
| TextGridExtract.MatchShift | compare-diff-result-textgrid.py:26 | a match attempt depends only on the text from its position on |
| TextGridExtract.QuotedShift | compare-diff-result-textgrid.py:26 | the scan from a position depends only on the text from there on |
| TextGridExtract.CloseShift | compare-diff-result-textgrid.py:26 | where a quote closes depends only on the text from there on |
| TextGridExtract.QuotedRendered | compare-diff-result-textgrid.py:26 | scanning interval lines as a TextGrid file writes them gives back their texts, when none holds a quote or a newline |
| TextGridExtract.QuotedLine | compare-diff-result-textgrid.py:26 | one written interval line yields its text and the scan goes on after it |
| TextGridExtract.LineMatches | compare-diff-result-textgrid.py:26 | in a written line the match closes at the quote after the text, and nothing matches after it on that line |
| TextGridExtract.QuotedAfterMarker | compare-diff-result-textgrid.py:26 | the tier header itself starts no match |
| TextGridExtract.TierTexts | compare-diff-result-textgrid.py:23-26 | a tier region of the header and written interval lines yields exactly those texts, in order |
| TextGridExtract.CleanMeaning | compare-diff-result-textgrid.py:30 | a character survives `translate` (all of `string.punctuation`) or `re.sub('[，。？！,.!?]')` exactly when it is in the text and not removed; cleaning twice is cleaning once; other characters are kept |
| TextGridExtract.Content | compare-diff-result-textgrid.py:17-33 | a file without the `内容层` header extracts to the empty string |
| TextGridExtract.ExtractTextGridContent | extract-txtgrid.py:20-36 | the extraction loop appends, cleaned, every found text that is not blank before cleaning, and joins them |
| TextGridExtract.ConcatChars | compare-diff-result-textgrid.py:33 | every character of the `''.join` comes from one of the parts |
| TextGridExtract.KeptChars | compare-diff-result-textgrid.py:27-31 | every character of the kept texts comes from some found text and is not removed punctuation |
| TextGridExtract.RegionChars | compare-diff-result-textgrid.py:24 | the region holds only characters of the file |
| TextGridExtract.ContentChars | compare-diff-result-textgrid.py:17-33 | the extracted content holds no removed punctuation, no quote, no newline, only characters of the file |
| TextGridExtract.QuotedChars | compare-diff-result-textgrid.py:26 | every character of a found text is a character of the scanned text |
| TextGridExtract.GroupedKeys | compare-diff-result-textgrid.py:49-50 | `file_contents` lists each name once, in the order first found |
| TextGridExtract.GroupedLookup | compare-diff-result-textgrid.py:35-51 | under each name `file_contents` holds every content found for it, in walk order; a name never found is absent |
| TextGridExtract.ContentsNone | compare-diff-result-textgrid.py:49-51 | a name never found has no contents |
| TextGridExtract.AddTo | compare-diff-result-textgrid.py:49-51 | create the empty list when the name is new, then append |
| TextGridExtract.AssignTwice | compare-diff-result-textgrid.py:50-51 | assigning a dict key twice keeps the second value in the first one's place |
| TextGridExtract.CollectContents | compare-diff-result-textgrid.py:38-51 | the walking loops group the extracted content of every `.TextGrid` file under its name, in walk order |
| TextGridExtract.CollectOne | compare-diff-result-textgrid.py:40-51 | a `.TextGrid` file's content goes under its name; any other file changes nothing |
| TextGridExtract.GroupedSnoc | compare-diff-result-textgrid.py:49-51 | grouping one more found file adds its content under its name |
| TextGridExtract.PartLinesMeaning | compare-diff-result-textgrid.py:63-64 | `enumerate` numbers the contents from 1, one line each, in order |
| TextGridExtract.BlockShape | compare-diff-result-textgrid.py:55-66 | a name's block is its header, then the three labelled lines exactly when it has three contents and otherwise one numbered line per content, then an empty line |
| TextGridExtract.ReportAppend | compare-diff-result-textgrid.py:55 | the report writes each name's block in turn |
| TextGridExtract.WriteReport | compare-diff-result-textgrid.py:54-66 | the writing loops write the blocks of all names in dict order |
| TextGridExtract.WriteBlock | compare-diff-result-textgrid.py:56-66 | the writes for one name |
| TextGridExtract.CompareResults | compare-diff-result-textgrid.py:35-66 | `compare.txt` is the report over the grouping of every walked `.TextGrid` file |
| TextGridExtract.GroupNameOf | compare-diff-result-textgrid.py:42 | `stem.TextGrid` groups under `stem` |
| TextGridExtract.TextOutputMeaning | extract-txtgrid.py:44-50 | the `text` file has one line per collected file, in collection order, holding that file's extracted content |
| TextGridExtract.ExtractTexts | extract-txtgrid.py:38-50 | the collecting loop, then the writing loop |
| TextGridExtract.CollectTgFiles | processtxt.py:26-30 | `tg_files` holds the joined path of every walked `.TextGrid` file, in walk order |
| TextGridExtract.WriteTexts | processtxt.py:32-38 | one line per collected file |
| TextGridExtract.OutputLineOf | extract-txtgrid.py:49-50 | for `root/stem.TextGrid` the line is `stem`, a space, the content, a newline |
| TextGridExtract.OutputLineSingle | processtxt.py:36-38 | a line's only newline is its last character when the file name has none |
| TextGridTrain.SegmentBaseOf | process_text/textgrid-to-train-data.py:21 | `stem.TextGrid` pairs with `stem.wav`, and its segments are named after `stem` |
| TextGridTrain.SegmentNameTimes | process_text/textgrid-to-train-data.py:56-61 | a segment name `base-start-end` with times padded to seven digits is read back by the id-time pattern as the same start and end milliseconds |
| TextGridTrain.NatToStringShort | process_text/textgrid-to-train-data.py:61 | a number below `10^k` has at most `k` digits, so `:07.0f` pads it to exactly seven |
| TextGridTrain.FindContentTier | process_text/textgrid-to-train-data.py:37-41 | the loop with its `break` finds the first tier named `内容层` |
| TextGridTrain.FirstTierMeaning | process_text/textgrid-to-train-data.py:37-46 | there is no tier exactly when no tier has that name; otherwise it is one named so with none before it |
| TextGridTrain.ScpLines | process_text/textgrid-to-train-data.py:76 | one `wav.scp` line per segment |
| TextGridTrain.TextLines | process_text/textgrid-to-train-data.py:77 | one `text` line per segment |
| TextGridTrain.ExportedMeaning | process_text/textgrid-to-train-data.py:54-73 | an interval gives a segment exactly when its stripped mark is not empty and its export goes through; the segment carries the stripped mark and is named and placed after the base and its times |
| TextGridTrain.SegmentsMeaning | process_text/textgrid-to-train-data.py:54-77 | the segments are exactly those the intervals give |
| TextGridTrain.ScpTextSnoc | process_text/textgrid-to-train-data.py:76-77 | each new segment appends `name path` to `wav_scp_lines` and `name text` to `text_lines` |
| TextGridTrain.LinesAligned | process_text/textgrid-to-train-data.py:76-77 | the `wav.scp` and `text` lines go in pairs, both led by the segment's name |
| TextGridTrain.CutSegments | process_text/textgrid-to-train-data.py:50-77 | the interval loop lists the segments in interval order, their lines, and `segment_count` equal to their number |
| TextGridTrain.AddSegment | process_text/textgrid-to-train-data.py:70-77 | an exported segment is counted and listed with its two lines |
| TextGridTrain.ExportInterval | process_text/textgrid-to-train-data.py:55-73 | one interval: skipped when its mark is blank, otherwise exported, and dropped when the export raises |
| TextGridTrain.ProcessedOk | process-textgrid.py:10-97 | a call succeeds exactly when the TextGrid parses, its WAV exists and loads, it has a `内容层` tier, some segment was exported and both appends went through; nothing is appended without a segment, and `text` only after `wav.scp` |
| TextGridTrain.Session.constructor | process_text/textgrid-to-train-data.py:152-155 | the counters start at zero |
| TextGridTrain.Session.ProcessTextGridAndWav | process_text/textgrid-to-train-data.py:11-100 | exactly one of `successful` and `failed` goes up by one, and the files grow by the call's appends |
| TextGridTrain.Session.ProcessLoaded | process_text/textgrid-to-train-data.py:14-98 | the checks in order, each failure counted once and appending nothing |
| TextGridTrain.OpenTier | process_text/textgrid-to-train-data.py:14-46 | the TextGrid is parsed, the WAV checked to exist and loaded, and the `内容层` tier looked up, in that order; the first step that fails leaves no tier |
| TextGridTrain.Session.ProcessTier | process_text/textgrid-to-train-data.py:50-98 | the tier's segments cut, then appended and counted |
| TextGridTrain.Session.AppendLines | process_text/textgrid-to-train-data.py:79-98 | with no segment the call fails and appends nothing; otherwise `wav.scp` then `text` get the joined lines and a newline, or the call fails at the append that raised |
| TextGridTrain.Session.WriteLists | process_text/textgrid-to-train-data.py:81-96 | the `wav.scp` block is appended first and the `text` block only if that went through; one success when both did, otherwise one failure with only the blocks written before the raise |
| TextGridTrain.Session.ProcessAll | process_text/textgrid-to-train-data.py:157-160 | `successful` counts the successful calls, `successful + failed` grows by the number of calls, and the files grow by the calls' appends in order |
| TextGridTrain.Session.Visit | process_text/textgrid-to-train-data.py:158-160 | a `.TextGrid` entry is processed, any other passed over |
| TextGridTrain.Steps | process_text/textgrid-to-train-data.py:157-160 | there are no more calls than listed files |
| TextGridTrain.StepsStep | process_text/textgrid-to-train-data.py:157-160 | one more listed file adds its call, if any |
| TextGridTrain.StepsOne | process_text/textgrid-to-train-data.py:93 | a single call adds one success exactly when it succeeds |
| TextGridTrain.StepsAppend | process_text/textgrid-to-train-data.py:157-160 | successes and appends add up over consecutive calls |
| TextGridTrain.StepsCount | process-textgrid.py:119-122 | one call per listed file ending in `.TextGrid`, in listing order |
| TextGridTrain.ReadScp | process_text/textgrid-to-train-data.py:102-111 | `read_scp`: lines of exactly two tokens, a later line for a key replacing the path in the key's first place |
| TextGridTrain.ReadText | process_text/textgrid-to-train-data.py:113-122 | `read_text`: lines with an id and a transcript, later lines winning |
| TextGridTrain.GenerateDataList | process_text/textgrid-to-train-data.py:124-137 | one record per `wav.scp` key that has a transcript, in `wav.scp` order |
| TextGridTrain.MakeDataList | process_text/textgrid-to-train-data.py:166-176 | nothing when `wav.scp` or `text` is missing, otherwise the records from both |
| TextGridTrain.DataListMembers | process_text/textgrid-to-train-data.py:124-133 | a record is written exactly when its key is in both files, with the last path and the last transcript given for it |
| TextGridTrain.DataFromItems | process_text/textgrid-to-train-data.py:126-133 | `generate_data_list` over any dict: a record for each key in both dicts, with both values |
| TextGridTrain.ItemAt | process_text/textgrid-to-train-data.py:110 | each item of the insertion-ordered dict holds the value the dict maps its key to |
| TextGridTrain.DataListOrder | process_text/textgrid-to-train-data.py:124-137 | no key has two records, and the records follow the order in which keys first appear in `wav.scp` |
| TextGridTrain.KeysOfEntries | process_text/textgrid-to-train-data.py:128-131 | the records' keys, in order |
| TextGridTrain.KeysFiltered | process_text/textgrid-to-train-data.py:126-133 | the records' keys are picked, in order, from the dict's keys |
| ScpTextList.ReadKeys | process_text/scp-text-list.py:79-84 | `keys_set` is the set of ids of the `wav.scp` lines with exactly two tokens |
| ScpTextList.TextEntry | process_text/scp-text-list.py:16-22 | a `text` line is kept only for an id in `keys_set` |
| ScpTextList.ReadText | process_text/scp-text-list.py:13-24 | `read_text` builds the dict of the kept lines, later lines winning |
| ScpTextList.TextDictKeys | scp-text-list.py:8-18 | an id is a key exactly when it is in `keys_set` and some line of the `text` file gives it a transcript |
| ScpTextList.TextDictLastWins | process_text/scp-text-list.py:22 | the last line giving a transcript for a kept id decides it |
| ScpTextList.KeyDuration | process_text/scp-text-list.py:40-49 | a key has a duration exactly when its `-` fields give one: at least three fields and numerals in the second and third last |
| ScpTextList.KeyDurationShort | process_text/scp-text-list.py:41-43 | a key of fewer than three fields has no duration |
| ScpTextList.KeyDurationOfFields | process_text/scp-text-list.py:46 | a key whose second and third last fields are numerals has their difference as its duration |
| ScpTextList.LineItem | process_text/scp-text-list.py:33-57 | a written record comes from a two-token `wav.scp` line whose key has a transcript, which the record carries |
| ScpTextList.GenerateDataList | process_text/scp-text-list.py:26-61 | the records written, `total_time` as the sum of their durations, and `entries_written` as their number |
| ScpTextList.CutLoop | scp-text-list.py:27-49 | the loop writes, adds, and breaks right after the record that brings the total to the limit |
| ScpTextList.CutFromIsCut | process_text/scp-text-list.py:33-59 | reading the lines one at a time, skipping those that give no record and stopping at the limit, writes the same records as cutting the list of all records the lines give |
| ScpTextList.EntriesOfStep | process_text/scp-text-list.py:56 | writing one more record appends it |
| ScpTextList.CutFront | process_text/scp-text-list.py:58-59 | the `break` fires on the first record that brings the running total to the limit |
| ScpTextList.CutPrefix | process_text/scp-text-list.py:58-59 | the limit only truncates: what is written is a prefix of the unlimited output, never empty when that is not |
| ScpTextList.CutNoLimit | process_text/scp-text-list.py:28 | with `--hours` absent or 0 nothing is cut |
| ScpTextList.CutBelow | process_text/scp-text-list.py:58-59 | every record but the last written one leaves the running total below the limit |
| ScpTextList.CutReached | process_text/scp-text-list.py:58-59 | when the limit cut the output short, the records written reach it |
| ScpTextList.GenerateNoLimit | scp-text-list.py:20-49 | without a limit every line whose key has a transcript (and, in this script, a duration) is written, in `wav.scp` order |
| ScpTextList.GenerateFromLines | process_text/scp-text-list.py:33-59 | with any limit the records are the first ones of the unlimited output, in `wav.scp` order |
| ScpTextList.UnparsedKey | scp-text-list.py:33-39 | scp-text-list.py skips a key without a duration; process_text/scp-text-list.py writes it with duration 0 |
| ScpTextList.SkippedLines | process_text/scp-text-list.py:34-38 | a line without exactly two tokens, or whose key has no transcript, is skipped by both scripts |
| PyStr.Strip | prepare_tuning_data.py:31 | `strip()` is empty exactly for an all-whitespace string, and otherwise neither starts nor ends with whitespace |
| PyStr.StripChar | augment_data_2.py:33 | `strip('\n')` removes that character from both ends only, is empty exactly when the string is made of it, and keeps only characters of the string |
| PyStr.Split | total_time.py:11 | `split()` gives non-empty whitespace-free tokens, none exactly for an all-whitespace string |
| PyStr.SplitMax1 | augment_data_2.py:22 | `split(maxsplit=1)` gives at most two parts, the first token of `split()` first, and two parts exactly when `split()` gives two or more tokens |
| PyStr.SplitMax1Parts | augment_data_2.py:36-40 | the two parts are the first token and the rest after the whitespace that follows it, with that whitespace non-empty |
| PyStr.SplitOnce | prepare_tuning_data.py:31 | `split(" ", 1)` gives one part, the string, exactly when there is no space, and otherwise the space-free text before the first space and everything after it |
| PyStr.SplitOn | total_time.py:13 | `split('-')` gives fields without `-` that `'-'.join` puts back together |
| PyStr.SplitOnJoin | total_time.py:13 | `split('-')` undoes `'-'.join` of fields without `-` |
| PyStr.Find | compare-diff-result-textgrid.py:19-23 | `find` returns the least index from `start` at which the pattern occurs, or -1 when it occurs nowhere from there |
| PyStr.ReplaceAllChars | extract-txtgrid.py:49 | every character `replace` leaves comes from the text or from the replacement |
| PyStr.Without | process_text/norm-text.py:8 | deleting a character leaves no occurrence of it and never lengthens the text |
| PyStr.ReplaceCharByNothing | process_text/norm-text.py:8 | `replace(c, "")` deletes exactly the occurrences of `c` |
| PyStr.ReplaceAbsent | process_text/norm-text.py:8 | a text without the pattern is returned unchanged by `replace` |
| PyStr.ReplaceSuffix | process-textgrid.py:20 | replacing the only occurrence, a final one, changes only that occurrence |
| PyStr.BasenameOfName | compare-diff-result-textgrid.py:42 | a name without `/` is its own basename |
| PyStr.BasenameJoin | extract-txtgrid.py:49 | the basename of a name joined onto a directory is the name |
| PyStr.SplitTwoWords | process_audio/check_audio_wenet.py:35 | `split()` of two whitespace-free words joined by a space gives back the two words |
| PyStr.SplitOneWord | process_audio/check_audio_wenet.py:35 | `split()` and `split(maxsplit=1)` of one whitespace-free word give that word alone |
| PyStr.SplitMax1WordRest | augment_data_2.py:36-40 | `split(maxsplit=1)` of `word + " " + rest` splits at that space when `rest` is non-empty and starts with non-whitespace |
| PyStr.SplitTwoWordsLine | total_time.py:11 | `split()` of a line `a b` with its trailing whitespace gives `[a, b]` |
| PyStr.SplitSpaceFirst | total_time.py:11 | a leading space changes nothing for `split()` |
| PyStr.SplitWordThen | total_time.py:11 | `split()` of a word followed by nothing or by whitespace gives the word, then the rest's tokens |
| PyStr.StripLine | prepare_tuning_data.py:31 | `strip()` of a line removes exactly its trailing whitespace when the text neither starts nor ends with whitespace |
| PyStr.StripKeeps | prepare_tuning_data.py:31 | a non-whitespace character survives `strip()`, shifted left by the stripped prefix |
| PyStr.TwoTokens | scp-text-list.py:28-31 | `line.strip().split()` with two parts gives two non-empty whitespace-free tokens |
| PyStr.IdAndRest | scp-text-list.py:12-15 | `line.strip().split(maxsplit=1)` with two parts gives a whitespace-free id and a non-empty rest starting with non-whitespace |
| PyStr.TwoTokensOf | scp-text-list.py:28-31 | a line `id path` and its newline gives the entry (id, path) |
| PyStr.IdAndRestOf | scp-text-list.py:12-15 | a line `id transcript` and its newline gives the entry (id, transcript) when the transcript has no whitespace at either end |
| PyStr.FewTokensNoEntry | scp-text-list.py:13-14 | a line with fewer than two tokens gives neither kind of entry |
| PyStr.PathJoinEnds | compare-diff-result-textgrid.py:43 | `os.path.join(a, b)` ends with `b` |
| PyStr.Basename | compare-diff-result-textgrid.py:42 | `os.path.basename` holds no `/` and ends the path |
| PyStr.SpaceInsideStrip | prepare_tuning_data.py:147 | a stripped line holds a space exactly when the line has a space between two non-whitespace characters |
| PyStr.SpaceInsideConcat | prepare_tuning_data.py:124-125 | text with a space between non-whitespace keeps one when another text is written before or after it |
| PyFile.LineLen | prepare_tuning_data.py:146 | the first line read is empty only for an empty file and never longer than the file |
| PyFile.LinesConcat | prepare_tuning_data.py:106-107 | the lines `readlines` gives, put back together, are the file |
| PyFile.LinesShape | prepare_tuning_data.py:106-107 | a file gives no lines exactly when it is empty; each line holds a newline only at its end, every line but the last has one, and the last has one exactly when the file ends with one |
| PyFile.LinesCons | prepare_tuning_data.py:146 | reading on after a line that ends with a newline gives that line, then the lines of the rest |
| PyFile.LinesOfLine | prepare_tuning_data.py:146 | a single line reads back as itself |
| PyFile.ReadBack | prepare_tuning_data.py:124-125 | reading back what `writelines` wrote gives the written lines with each one that lacks a newline joined to the next |
| PyFile.RejoinedAll | prepare_tuning_data.py:124-125 | written lines that all end with a newline (the last aside) read back unchanged, with no run-ons |
| PyFile.RejoinedCount | prepare_tuning_data.py:124-125 | each run-on makes one line fewer than were written |
| PyFile.RejoinedSpaceInside | prepare_tuning_data.py:124-125 | lines joined on reading back keep a space between non-whitespace when every written line has one |
| PyFile.StripNoNewline | prepare_tuning_data.py:31 | stripping a line leaves no newline in it |
| PyFile.NewlineEnded | prepare_tuning_data.py:113 | text without a newline followed by one is a line that ends with it |
| PyFile.RunOnExample | prepare_tuning_data.py:124-147 | written lines `b-0-2 q` and `a-0-1 p\n` read back as the one line `b-0-2 qa-0-1 p\n` |
| Digits.NatToString | augment_data_2.py:369 | `str(n)` is a non-empty run of digits denoting `n`, with a leading zero only for 0 |
| Digits.ZeroPad | process_text/textgrid-to-train-data.py:61 | `:07.0f` of a whole number gives digits denoting it, padded with zeros to at least seven characters and ending in `str(n)` |
| Digits.ParseIntOfDigits | total_time.py:14 | `int()` of a non-empty run of ASCII digits is the number they denote |
| Digits.ParseIntOfNatToString | total_time.py:14 | `int(str(n)) == n` |
| Digits.ParseIntRejects | scp-text-list.py:36-39 | `int()` raises ValueError on a string with a character that is neither a digit, whitespace, a sign nor an underscore |
| Digits.ParseIntStrip | total_time.py:14 | `int()` ignores surrounding whitespace |

## Left out

- Signal processing in floating point, which is an oracle here:
  - resampling (`resample_poly`, `Fraction.limit_denominator`), `change_speed` and the Butterworth filters;
  - `fftconvolve` and the RIR energy rescale, the RMS-based SNR/SIR gains;
  - `add_noise`, `speed_up`'s effect and `slow_down` in augment_data.py.

  These come in as caller-supplied functions constrained only by the lengths they return, and they never raise. Samples are exact reals, so float rounding and the `PCM_16` quantisation on write are not modelled.
- Durations are integer milliseconds. The scripts' float seconds are not modelled: `* 0.001`, `/ 1000` and the `--min/--max` bounds of check_audio_wenet.py. This means rounding in the float sums is not modelled either.
- Interval times in the TextGrid scripts are taken as whole milliseconds. The rounding of `{start_time:07.0f}` on fractional milliseconds is not modelled.
- Concurrency is left out:
  - `ThreadPoolExecutor`, `as_completed` and `vad_lock` in augment_data_2.py;
  - `multiprocessing.Pool` in augment_data.py.

  The completion order is a parameter, and only its effect on the order of results is modelled.
- Foreign libraries appear only through the values they return:
  - funasr VAD and SenseVoice `model.generate` and `rich_transcription_postprocess`;
  - pydub, soundfile, the `textgrid` parser and `json.loads`/`json.dumps`.

  JSON escaping is left out: a `data.list` line is a `{key, wav, txt}` record.
- The main loop of sensevoice.py is not part of this model: file listing, the model call and writing the results. Only its post-processing functions are.
- File-system effects appear as parameters: the contents a file is opened with, `os.path.exists`, `os.walk`/`os.listdir` order, and whether an `export` of augment_data.py is written.
- What a run leaves on disk when a later step raises is not modelled: appends, partial writes, and the copies augment_data.py exported before a failing export of the same triple. `os.makedirs` is not modelled, and `copy_dev_folder` (`shutil.copytree` of a fixed directory) is not part of this model.
- Text files are split on `\n` only: the universal-newline translation of `\r` and `\r\n` when Python reads a file is not modelled, and neither is decoding (files are strings of characters).
- Argument parsing (argparse), logging and printed messages are not modelled. That includes the `type=bool` quirk of `--calculate-duration`, which is modelled as the boolean it is meant to be.
- The existence check in `main` of process_text/norm-text.py is not modelled: `process_file` is modelled on its lines.
- Python's `\d` and `int()` also accept non-ASCII decimal digits. The model accepts ASCII digits only.
- In `process_one` of augment_data_2.py, a VAD segment given as a list of fewer than two numbers raises IndexError. Segments are modelled as pairs.
- `Rng`: the words that `default_rng(seed)` and `random` produce are a parameter. Each draw is reduced to its documented range, not by numpy's or CPython's exact algorithm.
- `std::stoi` throwing ends pcm2wav.cc abnormally. The model reports this as an outcome of its own, with no exit code. The console messages, including the usage text's claim of two channels, are not modelled.
