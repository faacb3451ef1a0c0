/** Lists of actions taken one after the other. */
module Schedules {
  import opened Bytes
  import opened Pipeline
  import opened Handoff

  /** Actions that can be taken one after the other from `s`. */
  ghost predicate Possible(cfg: Config, s: State, acts: seq<Action>)
    requires cfg.Sound()
    decreases |acts|
  {
    acts == [] || (Enabled(cfg, s, acts[0]) && Possible(cfg, Apply(cfg, s, acts[0]), acts[1..]))
  }

  ghost function After(cfg: Config, s: State, acts: seq<Action>): State
    requires cfg.Sound() && Possible(cfg, s, acts)
    decreases |acts|
  {
    if acts == [] then s else After(cfg, Apply(cfg, s, acts[0]), acts[1..])
  }

  lemma {:induction false} Compose(cfg: Config, s: State, a: seq<Action>, b: seq<Action>)
    requires cfg.Sound() && Possible(cfg, s, a) && Possible(cfg, After(cfg, s, a), b)
    ensures Possible(cfg, s, a + b) && After(cfg, s, a + b) == After(cfg, After(cfg, s, a), b)
    decreases |a|
  {
    if a == [] {
      assert a + b == b;
    } else {
      assert (a + b)[0] == a[0] && (a + b)[1..] == a[1..] + b;
      Compose(cfg, Apply(cfg, s, a[0]), a[1..], b);
    }
  }

  /** No call of `Log` begins. */
  predicate NoLogs(acts: seq<Action>) {
    forall i | 0 <= i < |acts| :: !acts[i].BeginLog?
  }

  lemma One(cfg: Config, s: State, a: Action)
    requires cfg.Sound() && Enabled(cfg, s, a)
    ensures Possible(cfg, s, [a]) && After(cfg, s, [a]) == Apply(cfg, s, a)
  {
    assert [a][1..] == [];
  }

  /** The schedule followed by one more action. */
  lemma Then(cfg: Config, s: State, acts: seq<Action>, a: Action)
    requires cfg.Sound() && Possible(cfg, s, acts) && Enabled(cfg, After(cfg, s, acts), a)
    ensures Possible(cfg, s, acts + [a]) && After(cfg, s, acts + [a]) == Apply(cfg, After(cfg, s, acts), a)
  {
    One(cfg, After(cfg, s, acts), a);
    Compose(cfg, s, acts, [a]);
  }

  lemma Go(cfg: Config, s: State, acts: seq<Action>, a: Action, u: State) returns (longer: seq<Action>)
    requires cfg.Sound() && Possible(cfg, s, acts) && Enabled(cfg, After(cfg, s, acts), a)
    requires u == Apply(cfg, After(cfg, s, acts), a)
    ensures Possible(cfg, s, longer) && After(cfg, s, longer) == u && longer == acts + [a]
  {
    Then(cfg, s, acts, a);
    longer := acts + [a];
  }

  /** These actions lead from `s` to `t` without a race. */
  ghost predicate Leads(cfg: Config, s: State, acts: seq<Action>, t: State)
    requires cfg.Sound()
    decreases |acts|
  {
    if acts == [] then s == t
    else Enabled(cfg, s, acts[0]) && RaceFree(s, acts[0]) && Leads(cfg, Apply(cfg, s, acts[0]), acts[1..], t)
  }

  lemma LeadsNowhere(cfg: Config, s: State)
    requires cfg.Sound()
    ensures Leads(cfg, s, [], s)
  {
  }

  lemma {:induction false} LeadsOn(cfg: Config, s: State, a: seq<Action>, t: State, b: seq<Action>, u: State)
    requires cfg.Sound() && Leads(cfg, s, a, t) && Leads(cfg, t, b, u)
    ensures Leads(cfg, s, a + b, u)
    decreases |a|
  {
    if a == [] {
      assert a + b == b;
    } else {
      assert (a + b)[0] == a[0] && (a + b)[1..] == a[1..] + b;
      LeadsOn(cfg, Apply(cfg, s, a[0]), a[1..], t, b, u);
    }
  }

  lemma Step(cfg: Config, s: State, acts: seq<Action>, t: State, a: Action, u: State) returns (longer: seq<Action>)
    requires cfg.Sound() && Leads(cfg, s, acts, t)
    requires Enabled(cfg, t, a) && RaceFree(t, a) && u == Apply(cfg, t, a)
    ensures Leads(cfg, s, longer, u) && longer == acts + [a]
  {
    assert [a][1..] == [];
    assert Leads(cfg, t, [a], u);
    LeadsOn(cfg, s, acts, t, [a], u);
    longer := acts + [a];
  }

  lemma {:induction false} LeadsIsPossible(cfg: Config, s: State, acts: seq<Action>, t: State)
    requires cfg.Sound() && Leads(cfg, s, acts, t)
    ensures Possible(cfg, s, acts) && After(cfg, s, acts) == t
    ensures Inv(cfg, s) ==> Inv(cfg, t)
    decreases |acts|
  {
    if acts != [] {
      if Inv(cfg, s) {
        StepKeepsInv(cfg, s, acts[0]);
      }
      LeadsIsPossible(cfg, Apply(cfg, s, acts[0]), acts[1..], t);
    }
  }

  /** Actions that lead on without a race are a race-free run. */
  lemma {:induction false} LeadsIsRun(cfg: Config, s: State, acts: seq<Action>, t: State) returns (ss: seq<State>)
    requires cfg.Sound() && Leads(cfg, s, acts, t)
    ensures IsRaceFreeRun(cfg, ss, acts) && ss[0] == s && ss[|acts|] == t
    decreases |acts|
  {
    hide Apply, RaceFree;
    if acts == [] {
      ss := [s];
    } else {
      var rest := LeadsIsRun(cfg, Apply(cfg, s, acts[0]), acts[1..], t);
      ss := [s] + rest;
      forall i | 0 <= i < |acts|
        ensures Enabled(cfg, ss[i], acts[i]) && RaceFree(ss[i], acts[i]) && ss[i + 1] == Apply(cfg, ss[i], acts[i])
      {
        if i > 0 {
          assert ss[i] == rest[i - 1] && ss[i + 1] == rest[i] && acts[i] == acts[1..][i - 1];
        }
      }
    }
  }

  // ---------- one producer ----------

  /** The pipeline between calls, with nothing running. */
  function Calm(c: Core): State {
    State(c, Resting, [Idle], 0)
  }

  function At(c: Core, pc: Proc): State {
    State(c, Resting, [pc], 0)
  }

  function Working(c: Core, worker: Worker): State {
    State(c, worker, [Idle], 0)
  }

  /** Some contents for the chunk header's unused bytes. */
  function Unused(): (bs: Bytes)
    ensures |bs| == SPARE
  {
    MMap.Zeros(SPARE)
  }
}
