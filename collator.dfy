/**
 * The batch collator as the program runs it: a loop over the minibatch that
 * filters and crops each record dictionary in place, followed by the two
 * list comprehensions that gather the surviving windows for stacking.
 */
module Collation {
  import opened Results
  import opened Tensors
  import opened CollationSpec

  /** One record dictionary; deleting a key sets its slot to `Deleted`. */
  class Record {
    var audio: Slot<seq<Sample>>
    var spectrogram: Slot<Option<Grid>>

    constructor (audio: seq<Sample>, spectrogram: Option<Grid>)
      ensures Value() == RecordValue(Held(audio), Held(spectrogram))
    {
      this.audio := Held(audio);
      this.spectrogram := Held(spectrogram);
    }

    /** The record's current contents. */
    function Value(): RecordValue
      reads this
    {
      RecordValue(audio, spectrogram)
    }
  }

  /** The current contents of every record, in order. */
  function Values(minibatch: seq<Record>): seq<RecordValue>
    reads minibatch
  {
    seq(|minibatch|, i requires 0 <= i < |minibatch| reads minibatch => minibatch[i].Value())
  }

  /** No record object appears twice in the minibatch. */
  predicate Distinct(minibatch: seq<Record>) {
    forall j, k :: 0 <= j < k < |minibatch| ==> minibatch[j] != minibatch[k]
  }

  class Collator {
    const cfg: Config

    constructor (cfg: Config)
      ensures this.cfg == cfg
    {
      this.cfg := cfg;
    }

    /**
     * The loop body for one record, with `offset` standing for the value
     * `random.randint` draws: drop the record when it is too short, otherwise
     * crop it in place.
     */
    method CropRecord(record: Record, offset: nat)
      requires Admissible(cfg, record.Value(), offset)
      modifies record
      ensures record.Value() == Process(cfg, old(record.Value()), offset)
    {
      if cfg.unconditional {
        if |record.audio.value| < cfg.audioLen {
          record.spectrogram := Deleted;
          record.audio := Deleted;
          return;
        }
        var start: int := offset;
        var end := start + cfg.audioLen;
        var window := Slice(record.audio.value, start, end);
        record.audio := Held(PadRight(window, (end - start) - |window|));
      } else {
        var g := record.spectrogram.value.value;
        if |g.rows| < cfg.cropMelFrames {
          record.spectrogram := Deleted;
          record.audio := Deleted;
          return;
        }
        var start: int := offset;
        var end := start + cfg.cropMelFrames;
        record.spectrogram := Held(Some(Transpose(Grid(g.width, g.rows[start..end]))));

        MulMonotone(start, end, cfg.hopSamples);
        start := start * cfg.hopSamples;
        end := end * cfg.hopSamples;
        var window := Slice(record.audio.value, start, end);
        record.audio := Held(PadRight(window, (end - start) - |window|));
      }
    }

    /**
     * `collate(minibatch)`, with `offsets[i]` the offset drawn for record `i`:
     * every record is left as the specification processes it, and the
     * result is the specification's batch (or its stacking failure).
     */
    method Collate(minibatch: seq<Record>, offsets: seq<nat>) returns (result: Result<Batch, StackError>)
      requires Distinct(minibatch)
      requires AllAdmissible(cfg, Values(minibatch), offsets)
      modifies minibatch
      ensures forall i :: 0 <= i < |minibatch| ==>
                minibatch[i].Value() == Process(cfg, old(minibatch[i].Value()), offsets[i])
      ensures result == Collated(cfg, old(Values(minibatch)), offsets)
    {
      ghost var before := Values(minibatch);
      for i := 0 to |minibatch|
        invariant forall j :: 0 <= j < i ==> minibatch[j].Value() == Process(cfg, before[j], offsets[j])
        invariant forall j :: i <= j < |minibatch| ==> minibatch[j].Value() == before[j]
      {
        CropRecord(minibatch[i], offsets[i]);
      }
      assert Values(minibatch) == ProcessAll(cfg, before, offsets);

      var audio := GatherAudio(minibatch);
      var stackedAudio := Stack(audio, AudioShape);
      if stackedAudio.Err? {
        return Err(stackedAudio.error);
      }
      if cfg.unconditional {
        return Ok(Batch(stackedAudio.value, None));
      }
      var spectrograms := GatherSpectrograms(minibatch);
      var stackedSpectrograms := Stack(spectrograms, GridShape);
      if stackedSpectrograms.Err? {
        return Err(stackedSpectrograms.error);
      }
      return Ok(Batch(stackedAudio.value, Some(stackedSpectrograms.value)));
    }
  }

  /** `[record["audio"] for record in minibatch if "audio" in record]` */
  method GatherAudio(minibatch: seq<Record>) returns (windows: seq<seq<Sample>>)
    ensures windows == AudioColumn(Values(minibatch))
  {
    windows := [];
    for i := 0 to |minibatch|
      invariant windows == AudioColumn(Values(minibatch)[..i])
    {
      assert Values(minibatch)[..i + 1][..i] == Values(minibatch)[..i];
      if minibatch[i].audio.Held? {
        windows := windows + [minibatch[i].audio.value];
      }
    }
    assert Values(minibatch)[..|minibatch|] == Values(minibatch);
  }

  /** `[record["spectrogram"] for record in minibatch if "spectrogram" in record]` */
  method GatherSpectrograms(minibatch: seq<Record>) returns (windows: seq<Grid>)
    ensures windows == SpectrogramColumn(Values(minibatch))
  {
    windows := [];
    for i := 0 to |minibatch|
      invariant windows == SpectrogramColumn(Values(minibatch)[..i])
    {
      assert Values(minibatch)[..i + 1][..i] == Values(minibatch)[..i];
      var s := minibatch[i].spectrogram;
      if s.Held? && s.value.Some? {
        windows := windows + [s.value.value];
      }
    }
    assert Values(minibatch)[..|minibatch|] == Values(minibatch);
  }
}
