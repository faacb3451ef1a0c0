/**
 * Session framing with one producer: the entries of the master, of the slave and of every chunk are one compressor
 * session each, and the live compressor is where the master's entries left it.
 */
module Sessions {
  import opened Bytes
  import opened Layout
  import opened Codec
  import opened Pipeline
  import opened Handoff

  function Messages(es: seq<Entry>): (ms: seq<Bytes>)
    ensures |ms| == |es|
  {
    if es == [] then [] else Messages(es[..|es| - 1]) + [es[|es| - 1].msg]
  }

  /** `es` was compressed from a fresh stream, entry after entry, and each output encrypted from the same vector. */
  predicate IsSession(cfg: Config, es: seq<Entry>) {
    es == [] ||
    (var before, e := es[..|es| - 1], es[|es| - 1];
     IsSession(cfg, before) && e.msg != [] && e.payload == Payload(cfg, Messages(before), e.msg))
  }

  function NonEmpty(ms: seq<Bytes>): (r: seq<Bytes>) {
    if ms == [] then []
    else NonEmpty(ms[..|ms| - 1]) + if ms[|ms| - 1] == [] then [] else [ms[|ms| - 1]]
  }

  /** A session of this run, or what the constructor found in one of the two mapped files. */
  ghost predicate FramedOr(cfg: Config, es: seq<Entry>, m0: seq<Entry>, s0: seq<Entry>) {
    IsSession(cfg, es) || es == m0 || es == s0
  }

  ghost predicate ChunksFramed(cfg: Config, chunks: seq<Chunk>, m0: seq<Entry>, s0: seq<Entry>) {
    forall k | 0 <= k < |chunks| :: FramedOr(cfg, chunks[k].entries, m0, s0)
  }

  ghost predicate Framed(cfg: Config, s: State, m0: seq<Entry>, s0: seq<Entry>)
    requires |s.procs| == 1
  {
    && (IsSession(cfg, s.core.master.entries) || (Booting(s.procs[0]) && s.core.master.entries == m0))
    && FramedOr(cfg, s.core.slave.entries, m0, s0)
    && ChunksFramed(cfg, AllChunks(s.core.files), m0, s0)
  }

  /** Where the live compressor stands, once the constructor is done. */
  ghost predicate InStep(s: State)
    requires |s.procs| == 1
  {
    var pc := s.procs[0];
    && (pc.LogReset? ==> s.core.master.entries == [])
    && (pc.LogPush? || (s.core.master.entries != [] && !Booting(pc)) ==>
          s.core.session == Messages(s.core.master.entries))
  }

  /** What was pushed after the recovered entries is what was logged. */
  predicate HistorySound(c: Core, recovered: nat) {
    recovered <= |c.pushed| && Messages(c.pushed[recovered..]) == NonEmpty(c.logged)
  }

  ghost predicate SessionInv(cfg: Config, s: State, m0: seq<Entry>, s0: seq<Entry>) {
    && |s.procs| == 1
    && Framed(cfg, s, m0, s0) && InStep(s)
    && HistorySound(s.core, s.recovered)
    && (Flushing(s.procs[0], MarkOf(s.procs[0])) ==> MarkOf(s.procs[0]) == |s.core.pushed|)
  }

  lemma MessagesAppend(es: seq<Entry>, e: Entry)
    ensures Messages(es + [e]) == Messages(es) + [e.msg]
  {
    assert (es + [e])[..|es|] == es;
  }

  lemma NonEmptyAppend(ms: seq<Bytes>, m: Bytes)
    ensures NonEmpty(ms + [m]) == NonEmpty(ms) + if m == [] then [] else [m]
  {
    assert (ms + [m])[..|ms|] == ms;
  }

  lemma {:induction false} SessionIsPlain(cfg: Config, es: seq<Entry>)
    requires IsSession(cfg, es)
    ensures Plain(Messages(es))
  {
    if es != [] {
      SessionIsPlain(cfg, es[..|es| - 1]);
    }
  }

  /** In step with a session, a message is stored exactly when it is not empty. */
  lemma StoredIffNonEmpty(cfg: Config, es: seq<Entry>, m: Bytes)
    requires Lawful(cfg.lib) && IsSession(cfg, es)
    ensures Payload(cfg, Messages(es), m) == [] <==> m == []
  {
    SessionIsPlain(cfg, es);
    if m != [] {
      assert Plain(Messages(es) + [m]);
    }
  }

  lemma SessionExtends(cfg: Config, es: seq<Entry>, e: Entry)
    requires IsSession(cfg, es) && e.msg != [] && e.payload == Payload(cfg, Messages(es), e.msg)
    ensures IsSession(cfg, es + [e])
  {
    assert (es + [e])[..|es|] == es;
  }

  /** The locked push, in step with the master's session. */
  lemma PushInStep(cfg: Config, c: Core, m: Bytes)
    requires cfg.Sound() && Lawful(cfg.lib) && IsSession(cfg, c.master.entries)
    requires c.session == Messages(c.master.entries)
    ensures Stored(cfg, c, m, Push(cfg, c, m))
  {
    StoredIffNonEmpty(cfg, c.master.entries, m);
  }

  predicate Stored(cfg: Config, c: Core, m: Bytes, c': Core) {
    var e := Entry(m, Payload(cfg, c.session, m));
    && c'.slave == c.slave && c'.files == c.files
    && c'.logged == c.logged + [m]
    && c'.session == (if m == [] then c.session else c.session + [m])
    && c'.pushed == (if m == [] then c.pushed else c.pushed + [e])
    && c'.master.entries == (if m == [] then c.master.entries else c.master.entries + [e])
  }

  lemma StoredKeepsSessions(cfg: Config, s: State, s': State, m0: seq<Entry>, s0: seq<Entry>)
    requires SessionInv(cfg, s, m0, s0) && s.procs[0].LogPush? && Stored(cfg, s.core, s.procs[0].msg, s'.core)
    requires |s'.procs| == 1 && (s'.procs[0].Idle? || s'.procs[0].LogRatio?) && s'.recovered == s.recovered
    ensures SessionInv(cfg, s', m0, s0)
  {
    hide IsSession, Messages, NonEmpty, AllChunks, Payload, HistorySound;
    StoredKeepsHistory(cfg, s.core, s.procs[0].msg, s'.core, s.recovered);
    StoredKeepsStep(cfg, s.core, s.procs[0].msg, s'.core);
  }

  lemma StoredKeepsStep(cfg: Config, c: Core, m: Bytes, c': Core)
    requires Stored(cfg, c, m, c') && IsSession(cfg, c.master.entries) && c.session == Messages(c.master.entries)
    ensures IsSession(cfg, c'.master.entries) && c'.session == Messages(c'.master.entries)
  {
    if m != [] {
      var e := Entry(m, Payload(cfg, c.session, m));
      SessionExtends(cfg, c.master.entries, e);
      MessagesAppend(c.master.entries, e);
    }
  }

  lemma StoredKeepsHistory(cfg: Config, c: Core, m: Bytes, c': Core, recovered: nat)
    requires Stored(cfg, c, m, c') && HistorySound(c, recovered)
    ensures HistorySound(c', recovered)
  {
    hide Messages, NonEmpty, Payload;
    var e := Entry(m, Payload(cfg, c.session, m));
    NonEmptyAppend(c.logged, m);
    MessagesAppend(c.pushed[recovered..], e);
    assert (c.pushed + [e])[recovered..] == c.pushed[recovered..] + [e];
  }

  /** Steps of the one producer outside the locked push leave the history, the files and the session's place alone. */
  lemma MoveKeepsHistory(cfg: Config, c: Core, pc: Proc)
    requires cfg.Sound() && !pc.LogPush? && !Waiting(pc) && !pc.Idle?
    ensures var (c', pc') := MoveCore(cfg, c, 0, pc);
            && c'.pushed == c.pushed && c'.logged == c.logged && c'.files == c.files
            && (c'.session == c.session || (pc.LogReset? && c'.session == []))
            && (pc'.LogReset? ==> pc.LogStart? && c.master.entries == [])
            && (pc'.LogPush? ==> pc.LogReset? || (pc.LogStart? && c.master.entries != []))
            && (Flushing(pc', MarkOf(pc')) ==> Flushing(pc, MarkOf(pc)) && MarkOf(pc') == MarkOf(pc))
  {
    hide Payload, AppendEntry, IsFull;
  }

  /** When the constructor ends it leaves the master empty. */
  lemma BootEndsEmpty(cfg: Config, s: State)
    requires cfg.Sound() && Inv(cfg, s) && |s.procs| == 1 && Enabled(cfg, s, Move(0)) && Booting(s.procs[0])
    ensures !Booting(Apply(cfg, s, Move(0)).procs[0]) ==>
              s.core.master.entries == [] && Apply(cfg, s, Move(0)).procs[0].Idle?
  {
    hide EntriesOf, AllChunks, EntriesBytes;
    MoveBoots(cfg, s.core, 0, s.procs[0]);
    assert Progress(s, 0);
  }

  lemma QuietMoveKeepsFrames(cfg: Config, s: State, m0: seq<Entry>, s0: seq<Entry>)
    requires cfg.Sound() && Inv(cfg, s) && SessionInv(cfg, s, m0, s0) && Enabled(cfg, s, Move(0))
    requires !s.procs[0].LogPush?
    ensures Framed(cfg, Apply(cfg, s, Move(0)), m0, s0) && InStep(Apply(cfg, s, Move(0)))
  {
    MoveBuffers(cfg, s.core, 0, s.procs[0]);
    MoveKeepsHistory(cfg, s.core, s.procs[0]);
    MoveBoots(cfg, s.core, 0, s.procs[0]);
    if Booting(s.procs[0]) {
      BootEndsEmpty(cfg, s);
    }
    if s.procs[0].SwapExchange? {
      assert Exchanging(s.procs);
      assert s.core.slave.entries == [];
    }
    hide Inv, ChunksFramed, MoveCore, HistorySound;
  }

  lemma PushKeepsSessions(cfg: Config, s: State, m0: seq<Entry>, s0: seq<Entry>)
    requires cfg.Sound() && Lawful(cfg.lib) && SessionInv(cfg, s, m0, s0) && Enabled(cfg, s, Move(0))
    requires s.procs[0].LogPush?
    ensures SessionInv(cfg, Apply(cfg, s, Move(0)), m0, s0)
  {
    var s' := Apply(cfg, s, Move(0));
    assert s'.core == Push(cfg, s.core, s.procs[0].msg);
    InStepWithMaster(cfg, s, m0, s0);
    hide SessionInv, Stored, Push, Payload, Lawful, IsSession;
    PushInStep(cfg, s.core, s.procs[0].msg);
    StoredKeepsSessions(cfg, s, s', m0, s0);
  }

  lemma InStepWithMaster(cfg: Config, s: State, m0: seq<Entry>, s0: seq<Entry>)
    requires SessionInv(cfg, s, m0, s0) && s.procs[0].LogPush?
    ensures IsSession(cfg, s.core.master.entries) && s.core.session == Messages(s.core.master.entries)
  {
    hide IsSession, Messages;
  }

  lemma QuietMoveKeepsSessions(cfg: Config, s: State, m0: seq<Entry>, s0: seq<Entry>)
    requires cfg.Sound() && Inv(cfg, s) && SessionInv(cfg, s, m0, s0) && Enabled(cfg, s, Move(0))
    requires !s.procs[0].LogPush?
    ensures SessionInv(cfg, Apply(cfg, s, Move(0)), m0, s0)
  {
    hide Inv, Framed, InStep, MoveCore, Messages, NonEmpty, Flushing, MarkOf;
    MoveKeepsHistory(cfg, s.core, s.procs[0]);
    QuietMoveKeepsFrames(cfg, s, m0, s0);
  }

  lemma MoveKeepsSessions(cfg: Config, s: State, m0: seq<Entry>, s0: seq<Entry>)
    requires cfg.Sound() && Lawful(cfg.lib) && Inv(cfg, s) && SessionInv(cfg, s, m0, s0) && Enabled(cfg, s, Move(0))
    ensures SessionInv(cfg, Apply(cfg, s, Move(0)), m0, s0)
  {
    hide Inv, Framed, InStep, HistorySound, MarkOf, Apply;
    if s.procs[0].LogPush? {
      PushKeepsSessions(cfg, s, m0, s0);
    } else {
      QuietMoveKeepsSessions(cfg, s, m0, s0);
    }
  }

  lemma EmptyIsFramed(cfg: Config, m0: seq<Entry>, s0: seq<Entry>)
    ensures FramedOr(cfg, [], m0, s0)
  {
  }

  lemma WorkKeepsChunksFramed(cfg: Config, s: State, spare: Bytes, m0: seq<Entry>, s0: seq<Entry>)
    requires cfg.Sound() && Enabled(cfg, s, Work(spare)) && ChunksSound(cfg, s)
    requires ChunksFramed(cfg, AllChunks(s.core.files), m0, s0) && FramedOr(cfg, s.core.slave.entries, m0, s0)
    ensures ChunksFramed(cfg, AllChunks(WorkStep(cfg, s, spare).core.files), m0, s0)
  {
    EmptyIsFramed(cfg, m0, s0);
    hide AllChunks, EntriesBytes, Complete, JustOpened, IsSession, HeaderFor;
    WorkBuffers(cfg, s, spare);
    if s.worker.WriteHeader? {
      AllChunksAfterOpen(cfg, s.core, s.worker.n, spare);
    } else if s.worker.WriteBody? {
      AllChunksAfterFill(s.core, s.worker.n);
    }
  }

  lemma WorkKeepsSessions(cfg: Config, s: State, spare: Bytes, m0: seq<Entry>, s0: seq<Entry>)
    requires cfg.Sound() && ChunksSound(cfg, s) && SessionInv(cfg, s, m0, s0) && Enabled(cfg, s, Work(spare))
    ensures SessionInv(cfg, Apply(cfg, s, Work(spare)), m0, s0)
  {
    hide WorkStep, ChunksSound, ChunksFramed, Messages, NonEmpty, AllChunks, FramedOr, EntriesOf;
    EmptyIsFramed(cfg, m0, s0);
    WorkBuffers(cfg, s, spare);
    WorkKeepsOthers(cfg, s, spare);
    WorkKeepsChunksFramed(cfg, s, spare, m0, s0);
  }

  lemma WorkKeepsOthers(cfg: Config, s: State, spare: Bytes)
    requires cfg.Sound() && Enabled(cfg, s, Work(spare)) && |s.procs| == 1
    ensures var s' := WorkStep(cfg, s, spare);
            && s'.core.session == s.core.session && s'.core.logged == s.core.logged && |s'.procs| == 1
            && s'.recovered == s.recovered
            && (s'.procs[0] == s.procs[0] || (s'.procs[0] == Signalled(s.procs[0]) && Waiting(s.procs[0])))
  {
  }

  lemma StepKeepsSessions(cfg: Config, s: State, a: Action, m0: seq<Entry>, s0: seq<Entry>)
    requires cfg.Sound() && Lawful(cfg.lib) && Inv(cfg, s) && SessionInv(cfg, s, m0, s0) && Enabled(cfg, s, a)
    ensures SessionInv(cfg, Apply(cfg, s, a), m0, s0)
  {
    hide Inv, Framed, InStep, Flushing, MarkOf, HistorySound, MoveCore, WorkStep;
    match a {
      case Move(p) =>
        assert p == 0;
        MoveKeepsSessions(cfg, s, m0, s0);
      case Work(spare) => StrandKeepsSessions(cfg, s, spare, m0, s0);
      case BeginLog(p, msg) =>
        assert p == 0;
        BeginKeepsSessions(cfg, s, LogStart(msg), m0, s0);
      case BeginFlush(p) =>
        assert p == 0;
        BeginKeepsSessions(cfg, s, FlushPost(|s.core.pushed|), m0, s0);
      case PostOther => PostOtherKeepsSessions(cfg, s, m0, s0);
    }
  }

  lemma StrandKeepsSessions(cfg: Config, s: State, spare: Bytes, m0: seq<Entry>, s0: seq<Entry>)
    requires cfg.Sound() && Inv(cfg, s) && SessionInv(cfg, s, m0, s0) && Enabled(cfg, s, Work(spare))
    ensures SessionInv(cfg, Apply(cfg, s, Work(spare)), m0, s0)
  {
    hide SessionInv, ChunksSound, Apply;
    WorkKeepsSessions(cfg, s, spare, m0, s0);
  }

  lemma BeginKeepsSessions(cfg: Config, s: State, pc: Proc, m0: seq<Entry>, s0: seq<Entry>)
    requires SessionInv(cfg, s, m0, s0) && s.procs[0].Idle? && (pc.LogStart? || pc == FlushPost(|s.core.pushed|))
    ensures SessionInv(cfg, s.(procs := s.procs[0 := pc]), m0, s0)
  {
    hide IsSession, Messages, NonEmpty, AllChunks;
  }

  lemma PostOtherKeepsSessions(cfg: Config, s: State, m0: seq<Entry>, s0: seq<Entry>)
    requires SessionInv(cfg, s, m0, s0)
    ensures SessionInv(cfg, s.(core := Post(s.core, OtherTask)), m0, s0)
  {
    hide IsSession, Messages, NonEmpty, AllChunks;
  }

  /** A run of one producer over any contents of the mapped files, with lawful codecs. */
  ghost predicate IsSoloRun(cfg: Config, ss: seq<State>, acts: seq<Action>, master: Buffer, slave: Buffer) {
    && IsRaceFreeRun(cfg, ss, acts) && Lawful(cfg.lib)
    && BufferSize(master) < U32 && BufferSize(slave) < U32
    && ss[0] == Start(master, slave, 1)
  }

  lemma StartIsFramed(cfg: Config, master: Buffer, slave: Buffer)
    ensures SessionInv(cfg, Start(master, slave, 1), master.entries, slave.entries)
  {
    var s := Start(master, slave, 1);
    assert s.core.pushed[s.recovered..] == [];
    assert Messages([]) == [] && NonEmpty([]) == [];
  }

  lemma {:induction false} SoloRunKeepsInv(cfg: Config, ss: seq<State>, acts: seq<Action>, i: nat,
                                           master: Buffer, slave: Buffer)
    requires IsSoloRun(cfg, ss, acts, master, slave) && i <= |acts|
    ensures Inv(cfg, ss[i]) && SessionInv(cfg, ss[i], master.entries, slave.entries)
  {
    hide Inv, SessionInv, Apply, RaceFree, Start;
    if i == 0 {
      StartHasInv(cfg, master, slave, 1);
      StartIsFramed(cfg, master, slave);
    } else {
      SoloRunKeepsInv(cfg, ss, acts, i - 1, master, slave);
      StepKeepsInv(cfg, ss[i - 1], acts[i - 1]);
      StepKeepsSessions(cfg, ss[i - 1], acts[i - 1], master.entries, slave.entries);
    }
  }

  /**
   * Session framing, over any contents found at the start: in every state once the constructor is done the master's
   * entries form one session opened by a fresh stream, the slave's and each chunk's form one or are what one of the
   * mapped files held, and whenever the master is not empty the live compressor has seen exactly its messages.
   */
  lemma SessionsAreFramed(cfg: Config, ss: seq<State>, acts: seq<Action>, i: nat, master: Buffer, slave: Buffer)
    requires IsSoloRun(cfg, ss, acts, master, slave) && i <= |acts| && |ss[i].procs| == 1 && !Booting(ss[i].procs[0])
    ensures IsSession(cfg, ss[i].core.master.entries)
    ensures FramedOr(cfg, ss[i].core.slave.entries, master.entries, slave.entries)
    ensures ChunksFramed(cfg, AllChunks(ss[i].core.files), master.entries, slave.entries)
    ensures ss[i].core.master.entries != [] ==> ss[i].core.session == Messages(ss[i].core.master.entries)
  {
    SoloRunKeepsInv(cfg, ss, acts, i, master, slave);
  }

  /** Past what was recovered, only empty messages are dropped, and they leave no trace. */
  lemma OnlyEmptyMessagesAreDropped(cfg: Config, ss: seq<State>, acts: seq<Action>, i: nat, master: Buffer, slave: Buffer)
    requires IsSoloRun(cfg, ss, acts, master, slave) && i <= |acts|
    ensures var found := |slave.entries| + |master.entries|;
            found <= |ss[i].core.pushed| && Messages(ss[i].core.pushed[found..]) == NonEmpty(ss[i].core.logged)
  {
    hide Inv, Apply, RaceFree, Framed, InStep, Messages, NonEmpty, Flushing, MarkOf;
    SoloRunKeepsInv(cfg, ss, acts, i, master, slave);
    RecoveredStays(cfg, ss, acts, i);
  }

  lemma {:induction false} RecoveredStays(cfg: Config, ss: seq<State>, acts: seq<Action>, i: nat)
    requires IsRun(cfg, ss, acts) && i <= |acts|
    ensures ss[i].recovered == ss[0].recovered
  {
    if i > 0 {
      RecoveredStays(cfg, ss, acts, i - 1);
      StepKeepsRecovered(cfg, ss[i - 1], acts[i - 1]);
    }
  }

  lemma StepKeepsRecovered(cfg: Config, s: State, a: Action)
    requires cfg.Sound() && Enabled(cfg, s, a)
    ensures Apply(cfg, s, a).recovered == s.recovered
  {
  }

  /** When the one producer's `Flush` returns, the files hold everything ever found or pushed, in whole chunks. */
  lemma FlushWritesEverything(cfg: Config, ss: seq<State>, acts: seq<Action>, i: nat, master: Buffer, slave: Buffer)
    requires IsSoloRun(cfg, ss, acts, master, slave) && i <= |acts| && |ss[i].procs| == 1 && ss[i].procs[0].FlushDone?
    ensures Written(ss[i].core) == ss[i].core.pushed
    ensures forall k | 0 <= k < |AllChunks(ss[i].core.files)| :: Complete(cfg, AllChunks(ss[i].core.files)[k])
  {
    SoloRunKeepsInv(cfg, ss, acts, i, master, slave);
    var s := ss[i];
    assert Progress(s, 0);
    var written, rest := Written(s.core), Unwritten(s) + s.core.master.entries;
    assert written + rest == written + Unwritten(s) + s.core.master.entries;
    assert |rest| == 0;
    assert written + [] == written;
  }

  // ---------- from empty files ----------

  /** A run of one producer whose mapped files were empty at the start, with lawful codecs. */
  ghost predicate IsFreshSoloRun(cfg: Config, ss: seq<State>, acts: seq<Action>) {
    && IsRaceFreeRun(cfg, ss, acts) && Lawful(cfg.lib)
    && exists c1: nat, c2: nat :: ss[0] == Start(Buffer([], c1), Buffer([], c2), 1)
  }

  lemma FreshIsSolo(cfg: Config, ss: seq<State>, acts: seq<Action>) returns (master: Buffer, slave: Buffer)
    requires IsFreshSoloRun(cfg, ss, acts)
    ensures IsSoloRun(cfg, ss, acts, master, slave) && master.entries == [] && slave.entries == []
  {
    var c1: nat, c2: nat :| ss[0] == Start(Buffer([], c1), Buffer([], c2), 1);
    master, slave := Buffer([], c1), Buffer([], c2);
  }

  /** Then every chunk is a session, what was pushed is what was logged, and a flush leaves it all in whole chunks. */
  lemma FreshFlushIsFramed(cfg: Config, ss: seq<State>, acts: seq<Action>, i: nat)
    requires IsFreshSoloRun(cfg, ss, acts) && i <= |acts| && |ss[i].procs| == 1 && ss[i].procs[0].FlushDone?
    ensures Written(ss[i].core) == ss[i].core.pushed
    ensures Messages(ss[i].core.pushed) == NonEmpty(ss[i].core.logged)
    ensures forall k | 0 <= k < |AllChunks(ss[i].core.files)| ::
              var c := AllChunks(ss[i].core.files)[k]; Complete(cfg, c) && IsSession(cfg, c.entries)
  {
    hide IsSoloRun, Written, Apply, RaceFree;
    var master, slave := FreshIsSolo(cfg, ss, acts);
    FlushWritesEverything(cfg, ss, acts, i, master, slave);
    SessionsAreFramed(cfg, ss, acts, i, master, slave);
    OnlyEmptyMessagesAreDropped(cfg, ss, acts, i, master, slave);
    assert ss[i].core.pushed[0..] == ss[i].core.pushed;
  }
}
