# Batch collator of a diffusion-based speech synthesiser, modelled in Dafny

This project models `Collator.collate`, the batch collator of a
denoising-diffusion audio synthesiser (DiffWave style). The collator turns a
minibatch of variable-length training records into fixed-length windows that
can be stacked into one tensor. A record is a dictionary with an `audio` clip
and a `spectrogram`. The spectrogram is `None` for unconditional training and
otherwise a frames × bins array.

- **Unconditional mode.** A clip shorter than `audio_len` samples loses both
  keys and is dropped. Any other clip is cut to `audio[start:start+audio_len]`
  at a random `start` in `[0, len - audio_len]`, then right-padded with zeros
  to `audio_len`.
- **Conditional mode.** A record with fewer than `crop_mel_frames` spectrogram
  frames is dropped. Any other record keeps frames `[start, start+crop)`,
  transposed to bins × frames. Its audio is sliced over
  `[start*hop_samples, end*hop_samples)`; that range may run past the end of
  the clip. The audio is then zero-padded to `crop*hop_samples` samples.
- **Stacking.** The surviving audio windows are stacked. In conditional mode
  the surviving spectrogram windows are stacked too. `torch.stack` fails on an
  empty list and on windows of different shapes.

Files:

- `results.dfy`: `Option` and `Result`.
- `tensors.dfy`: the library operations the collator uses. These are Python
  slicing (bounds clamped to the length), `F.pad` with zeros, `.T`, and
  `torch.stack` with its two failure cases.
- `collation_spec.dfy`: the collator stated on values. `Process` is one pass
  of the loop body over one record. `Collated` is the whole call. The lemmas
  cover window position, window length, padding, filtering, order and the
  empty batch.
- `collator.dfy`: the collator as the program runs it. `Record` is a class
  whose `audio` and `spectrogram` slots are overwritten or deleted in place.
  `Collator.Collate` loops over the minibatch calling `CropRecord` on each
  record, then gathers the surviving windows with two loops (the source's
  list comprehensions) and stacks them. `CropRecord` is proved to leave its
  record as `Process` says; `Collate` is proved to leave every record of the
  minibatch so and to return exactly `Collated` of their original contents.

The random offset that `random.randint` draws is an input, one per record. For
a surviving record it must lie in the inclusive range the source draws from.
No offset is drawn for a dropped record, so its offset is ignored.

Three consequences of the code are worth stating:

- When no record survives, `torch.stack` fails on the empty list
  (dataset.py:111-113), and the model returns `Err(EmptyStack)`.
- The pad amount `(end - start) - len(slice)` is always computed, and
  `UnconditionalWindow` proves it is zero in unconditional mode.
- Survivors with different bin counts make the spectrogram `torch.stack`
  fail (dataset.py:120-122), and the model returns `Err(ShapeMismatch)`.

## Model

| member | source | states |
|---|---|---|
| `Tensors.Slice` | src/diffspeak/datasets/dataset.py:74 | A Python slice `s[lo:hi]` clamps both bounds: it has `min(hi,len) - min(lo,len)` elements, never more than `hi - lo` (so the pad amount is never negative), and element `k` is `s[lo+k]` |
| `Tensors.PadRight` | src/diffspeak/datasets/dataset.py:75-80 | Right zero-padding by `n` keeps the input as a prefix, adds exactly `n` elements, and every added element is `0` |
| `Tensors.FitWindow` | src/diffspeak/datasets/dataset.py:99-109 | Slice-then-pad always gives exactly `hi - lo` samples; sample `k` is the clip's `s[lo+k]` while `lo+k` is inside the clip and `0` past its end |
| `Tensors.FitWindowInside` | src/diffspeak/datasets/dataset.py:70-80 | A window inside the clip slices to its full length, so nothing is padded and the window is the plain subsequence `s[lo..hi]` |
| `Tensors.Transpose` | src/diffspeak/datasets/dataset.py:97 | `.T` swaps the two dimensions (a `crop × bins` array becomes `bins × crop`), keeps every row the same length, and puts `g[t][c]` at `[c][t]` |
| `Tensors.TransposeInvolution` | src/diffspeak/datasets/dataset.py:97 | Transposing twice gives back the original array, including its width when it has no rows |
| `Tensors.Stack` | src/diffspeak/datasets/dataset.py:111-113 | `torch.stack` fails with an empty-list error exactly when the list is empty; it succeeds exactly when the list is non-empty and all shapes are equal, and then keeps the items in order |
| `CollationSpec.Process` | src/diffspeak/datasets/dataset.py:62-109 | One pass of the loop body deletes both the `audio` and `spectrogram` keys exactly when the record is too short for the mode. A surviving record's audio window is `audio_len` samples (unconditional) or `crop_mel_frames * hop_samples` samples (conditional) |
| `CollationSpec.Survivors` | src/diffspeak/datasets/dataset.py:111-113 | The surviving indices are strictly increasing, and each one names a record long enough for the mode |
| `CollationSpec.SurvivorsComplete` | src/diffspeak/datasets/dataset.py:62-89 | No record long enough for the mode is filtered out: every such index is among the survivors |
| `CollationSpec.UnconditionalWindow` | src/diffspeak/datasets/dataset.py:70-80 | Unconditional mode: an offset from `[0, len - audio_len]` keeps `[start, start+audio_len)` inside the clip, so the pad amount is zero. The audio becomes exactly `audio[start..start+audio_len)` and the spectrogram entry is untouched |
| `CollationSpec.ConditionalWindow` | src/diffspeak/datasets/dataset.py:91-97 | Conditional mode: the frame window lies inside the spectrogram. The new spectrogram has as many rows as the input has bins and `crop_mel_frames` columns, and entry `[b][t]` is input frame `start+t`, bin `b` |
| `CollationSpec.ConditionalAudioWindow` | src/diffspeak/datasets/dataset.py:99-109 | Conditional mode: the audio window has exactly `crop_mel_frames * hop_samples` samples. Sample `k` is the clip's sample `start*hop + k` before the end of the clip and zero past it |
| `CollationSpec.ConditionalWindowInsideClip` | src/diffspeak/datasets/dataset.py:99-103 | Conditional mode with a clip at least `frames * hop_samples` long: the sample range `[start*hop, end*hop)` lies inside the clip and the audio window is exactly that subsequence, with no padding |
| `CollationSpec.AudioColumnInOrder` | src/diffspeak/datasets/dataset.py:111-113 | The gathered audio list has one entry per surviving record, in input order, and entry `k` is the `k`-th survivor's window |
| `CollationSpec.SpectrogramColumnInOrder` | src/diffspeak/datasets/dataset.py:120-122 | Conditional mode: the gathered spectrogram list has one entry per surviving record, in input order, and entry `k` is the `k`-th survivor's transposed window |
| `CollationSpec.EmptyBatchIff` | src/diffspeak/datasets/dataset.py:111-113 | In both modes the call fails on an empty stack exactly when no record is long enough |
| `CollationSpec.UnconditionalBatch` | src/diffspeak/datasets/dataset.py:111-119 | Unconditional mode: with no survivor the call fails on the empty stack. Otherwise it returns one `audio_len` window per survivor, in input order, each `audio[start..start+audio_len)`, with spectrogram `None`. A shape mismatch cannot occur |
| `CollationSpec.ShortClipBesideValidClip` | src/diffspeak/datasets/dataset.py:65-80 | Unconditional mode: a clip shorter than `audio_len` listed beside one that is long enough is dropped, and the batch is exactly the long clip's window at its offset, with spectrogram `None` |
| `CollationSpec.ConditionalBatchSucceedsIff` | src/diffspeak/datasets/dataset.py:111-126 | Conditional mode: a batch is returned exactly when some record survives and the survivors' bin counts (`SurvivorBins`) are all equal; otherwise stacking fails |
| `CollationSpec.ConditionalBatch` | src/diffspeak/datasets/dataset.py:111-126 | Conditional mode: a returned batch has as many spectrogram windows as audio windows, one of each per survivor in input order, and every audio window is `crop_mel_frames * hop_samples` long |
| `Collation.Collator.CropRecord` | src/diffspeak/datasets/dataset.py:62-109 | The in-place loop body (deleting keys, reassigning `audio`/`spectrogram`, scaling `start`/`end` by `hop_samples`) leaves the record as `Process` describes |
| `Collation.Collator.Collate` | src/diffspeak/datasets/dataset.py:59-126 | After the call every record of the minibatch is as `Process` leaves it, and the result is `Collated` of the records' original contents |
| `Collation.GatherAudio` | src/diffspeak/datasets/dataset.py:111-113 | The list comprehension over records that still hold `audio` yields the audio column of the current records |
| `Collation.GatherSpectrograms` | src/diffspeak/datasets/dataset.py:120-122 | The list comprehension over records that still hold `spectrogram` yields the spectrogram column of the current records |

## Left out

- `src/diffspeak/lightning_classes/lightningmodule_model.py` is not part of this model. Its noise schedule, forward noising and reverse sampling loop are floating-point tensor numerics with square roots. They depend on a denoising network whose code is not given and on Gaussian random draws. `adjust_Ts` is an empty stub. The rest is logging, optimizer wiring and reflective object construction.
- The dataset classes and `lj_speech_from_path` (dataset.py:17-52, 129-134) are left out. They glob files, load audio and spectrograms from disk, and pick a class. A record enters the model already loaded.
- `random.randint` is replaced by one injected offset per record, constrained to the inclusive range the source draws from.
- `torch.squeeze` at lines 74 and 101 turns a slice of exactly one sample into a 0-d tensor, and `len()` at line 77 or 106 then raises `TypeError`. This happens when `audio_len` is 1, when `crop_mel_frames * hop_samples` is 1, and in conditional mode whenever the clip ends one sample after `start*hop` (for example crop 2, hop 4, a 5-sample clip and offset 1). The model keeps the one-sample slice as a sequence and pads it, so on those inputs `Process` returns a window where the source raises. Tensor dtype and device are left out too. Audio is a flat sequence and a spectrogram a rectangular array.
- Samples are `real` values that are only copied, never computed with, so floating-point behaviour does not arise.
- Configuration values are natural numbers. Negative `audio_len`, `crop_mel_frames` or `hop_samples` (where `F.pad` would crop) are not modelled.
- Collation.Collator.Collate: requires the minibatch's records to be distinct objects. The same dictionary listed twice would be cropped twice in the source; that aliasing is not modelled.
- Collation.Collator.Collate: requires every record to hold both keys (`Loaded`), and those exceptions are not modelled. The source raises `KeyError` on a missing `"audio"`, on a short unconditional record with no `"spectrogram"` (line 66) and on a conditional record with no `"spectrogram"` (line 84). It raises `TypeError` when a conditional record's spectrogram is `None` (line 84). `Loaded` also excludes a long-enough unconditional record without a `"spectrogram"` key, which the source accepts, but the repository's datasets never produce such a record (lines 42, 52). That a conditional spectrogram is rectangular is a property of the model's `Grid` representation, as a numpy array always is, not a check the source makes.
- Spectrograms are treated as stackable tensors. As the repository wires it, the conditional dataset hands over numpy arrays (`np.load(...)` and `.T`, lines 39-42), line 97 keeps them as numpy, and line 120 passes them to `torch.stack` without conversion. `torch.stack` accepts only tensors, so a conditional batch with a survivor would raise `TypeError` there rather than return the batch that `ConditionalBatch` and `ConditionalBatchSucceedsIff` describe. The model does not capture this type error.
- Collation.GatherSpectrograms: gathers only spectrogram slots that hold an array. In conditional mode every surviving record holds one, so the `None` value of unconditional data never reaches this step.
