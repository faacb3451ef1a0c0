/** Size-driven rotation: chunks never straddle files and no file outgrows its limit by more than its last chunk. */
module FileLimits {
  import opened Bytes
  import opened Pipeline
  import R = Rotation

  predicate Limited(cfg: Config, file: seq<Chunk>) {
    file != [] && FileSize(file[..|file| - 1]) <= cfg.singleSize
  }

  /** Every file but the current one was left because it had outgrown the limit. */
  predicate AllLimited(cfg: Config, files: seq<seq<Chunk>>) {
    && (forall f | 0 <= f < |files| :: Limited(cfg, files[f]))
    && (forall f | 0 <= f < |files| - 1 :: FileSize(files[f]) > cfg.singleSize)
  }

  /** A chunk goes behind the others of a file within the limit. */
  lemma AppendedKeepsLimits(cfg: Config, files: seq<seq<Chunk>>, c: Chunk)
    requires AllLimited(cfg, files) && files != [] && FileSize(files[|files| - 1]) <= cfg.singleSize
    ensures AllLimited(cfg, files[|files| - 1 := files[|files| - 1] + [c]])
  {
    hide FileSize;
    var file := files[|files| - 1];
    assert (file + [c])[..|file + [c]| - 1] == file;
  }

  /** Or it opens a new file behind one beyond the limit. */
  lemma OpenedKeepsLimits(cfg: Config, files: seq<seq<Chunk>>, c: Chunk)
    requires AllLimited(cfg, files) && (files == [] || FileSize(files[|files| - 1]) > cfg.singleSize)
    ensures AllLimited(cfg, files + [[c]])
  {
    assert FileSize([]) == 0;
    hide FileSize;
    assert [c][..|[c]| - 1] == [];
  }

  lemma OpenKeepsLimits(cfg: Config, c: Core, size: nat, spare: Bytes)
    requires AllLimited(cfg, c.files)
    ensures AllLimited(cfg, OpenChunk(cfg, c, size, spare).files)
  {
    hide AllLimited, FileSize, HeaderFor;
    var chunk := Chunk(HeaderFor(cfg, size, spare), [], []);
    if c.files == [] || FileSize(c.files[|c.files| - 1]) > cfg.singleSize {
      OpenedKeepsLimits(cfg, c.files, chunk);
    } else {
      AppendedKeepsLimits(cfg, c.files, chunk);
    }
  }

  /** The size of the current file, as the writer asks for it. */
  function CurrentSize(c: Core): nat {
    if c.files == [] then 0 else FileSize(c.files[|c.files| - 1])
  }

  /** The chunk opens a new file exactly when the name to write to changes, unless the directory makes rotation repeat one. */
  lemma OpensIffNameChanges(cfg: Config, c: Core, size: nat, spare: Bytes, file: string, d: R.Dir, now: R.Stamp)
    requires (d.path == "" <==> c.files == []) && (d.path != "" ==> d.path in d.names) && R.Ready(file, now, d.names)
    ensures |OpenChunk(cfg, c, size, spare).files| > |c.files| <==>
              R.Step(file, cfg.singleSize, d, R.Write(CurrentSize(c), now)).path != d.path
  {
    hide FileSize, HeaderFor;
    if R.Rotates(cfg.singleSize, d, CurrentSize(c)) {
      R.RotatedNameIsFresh(file, cfg.singleSize, d, CurrentSize(c), now);
    }
  }

  lemma FillKeepsLimits(cfg: Config, c: Core, size: nat)
    requires AllLimited(cfg, c.files)
    ensures AllLimited(cfg, FillChunk(c, size).files)
  {
    if HasChunk(c.files) {
      var f := |c.files| - 1;
      var before, after := c.files[f], FillChunk(c, size).files[f];
      assert after[..|after| - 1] == before[..|before| - 1];
    }
  }

  lemma MoveKeepsFiles(cfg: Config, c: Core, p: nat, pc: Proc)
    requires cfg.Sound()
    ensures MoveCore(cfg, c, p, pc).0.files == c.files
  {
  }

  lemma WorkKeepsLimits(cfg: Config, s: State, spare: Bytes)
    requires cfg.Sound() && Enabled(cfg, s, Work(spare)) && AllLimited(cfg, s.core.files)
    ensures AllLimited(cfg, WorkStep(cfg, s, spare).core.files)
  {
    if s.worker.WriteHeader? {
      OpenKeepsLimits(cfg, s.core, s.worker.n, spare);
    } else if s.worker.WriteBody? {
      FillKeepsLimits(cfg, s.core, s.worker.n);
    }
  }

  /**
   * In every state of every run, racing or not, a file without its last chunk is within `single_size`, and a file is
   * left only once it is beyond it.
   */
  lemma {:induction false} FilesStayLimited(cfg: Config, ss: seq<State>, acts: seq<Action>, i: nat)
    requires IsRun(cfg, ss, acts) && i <= |acts| && ss[0].core.files == []
    ensures forall f | 0 <= f < |ss[i].core.files| :: Limited(cfg, ss[i].core.files[f])
    ensures forall f | 0 <= f < |ss[i].core.files| - 1 :: FileSize(ss[i].core.files[f]) > cfg.singleSize
  {
    if i > 0 {
      FilesStayLimited(cfg, ss, acts, i - 1);
      var s, a := ss[i - 1], acts[i - 1];
      if a.Move? {
        MoveKeepsFiles(cfg, s.core, a.p, s.procs[a.p]);
      } else if a.Work? {
        WorkKeepsLimits(cfg, s, a.spare);
      }
    }
  }
}
