/** Runs can be continued until the system rests, and what that yields. */
module Continuations {
  import opened Config
  import opened System
  import opened Invariant
  import opened Ownership
  import opened Liveness
  import opened Theorems

  /** Steps of the system can leave neither the reads nor the registered callbacks
      changed. */
  lemma DrivenKeeps(cfg: Config, s: State, l: Label)
    requires Sane(cfg, s) && Enabled(cfg, s, l) && Driven(l)
    ensures Next(cfg, s, l).issued == s.issued && Next(cfg, s, l).registered == s.registered
  {
  }

  /** `more` and `steps` continue a run with steps of the system alone, to state `last`. */
  ghost predicate Continues(cfg: Config, states: seq<State>, labels: seq<Label>, more: seq<State>, steps: seq<Label>,
                            last: State) {
    && |states| == |labels| + 1 && |more| == |steps|
    && IsRun(cfg, states + more, labels + steps)
    && (forall i :: 0 <= i < |steps| ==> Driven(steps[i]))
    && last == (states + more)[|labels| + |steps|]
    && last.registered == states[|labels|].registered
    && (forall i :: |labels| <= i < |states + more| ==> (states + more)[i].issued == states[|labels|].issued)
  }

  lemma OneStep(cfg: Config, states: seq<State>, labels: seq<Label>, l: Label)
    requires IsRun(cfg, states, labels)
    requires Driven(l) && Enabled(cfg, states[|labels|], l) && InOrder(states[|labels|], l)
    ensures Sane(cfg, states[|labels|])
    ensures var t := Next(cfg, states[|labels|], l);
            && IsRun(cfg, states + [t], labels + [l])
            && t.issued == states[|labels|].issued && t.registered == states[|labels|].registered
            && Left(cfg, t) < Left(cfg, states[|labels|])
  {
    RunExtends(cfg, states, labels, l);
    DrivenKeeps(cfg, states[|labels|], l);
    var t := Next(cfg, states[|labels|], l);
    assert (labels + [l])[|labels|] == l && (states + [t])[|labels|] == states[|labels|];
    assert (states + [t])[|labels| + 1] == t;
    RunStepLowers(cfg, states + [t], labels + [l], |labels|);
  }

  /** Every run can be continued, by steps of the system alone and no more of them than
      the measure says, to a state in which only the application can move. */
  lemma RunToRest(cfg: Config, states: seq<State>, labels: seq<Label>)
      returns (more: seq<State>, steps: seq<Label>, last: State)
    requires IsRun(cfg, states, labels)
    ensures Continues(cfg, states, labels, more, steps, last)
    ensures Quiet(cfg, last) && |steps| <= Left(cfg, states[|labels|])
    decreases Left(cfg, states[|labels|])
  {
    if Quiet(cfg, states[|labels|]) {
      more, steps, last := [], [], states[|labels|];
      assert states + [] == states && labels + [] == labels;
    } else {
      var l := SomeStep(cfg, states[|labels|]);
      OneStep(cfg, states, labels, l);
      var t := Next(cfg, states[|labels|], l);
      var states', labels' := states + [t], labels + [l];
      assert states'[|labels'|] == t;
      more, steps, last := RunToRest(cfg, states', labels');
      Joins(cfg, states, labels, t, l, more, steps, last);
      more, steps := [t] + more, [l] + steps;
    }
  }

  lemma Joins(cfg: Config, states: seq<State>, labels: seq<Label>, t: State, l: Label, more: seq<State>,
              steps: seq<Label>, last: State)
    requires |states| == |labels| + 1 && Driven(l)
    requires t.issued == states[|labels|].issued && t.registered == states[|labels|].registered
    requires Continues(cfg, states + [t], labels + [l], more, steps, last)
    ensures Continues(cfg, states, labels, [t] + more, [l] + steps, last)
  {
    assert states + ([t] + more) == states + [t] + more;
    assert labels + ([l] + steps) == labels + [l] + steps;
    assert (states + [t])[|labels + [l]|] == t && (states + [t] + more)[|labels|] == states[|labels|];
  }

  /** Every read can be completed.  A run in which every read issued is servable, with a
      read-done callback registered for each, can be continued by steps of the system
      alone until all of them have been called back on both sides and all buffers are
      idle; however it is continued that takes no more steps than the measure says. */
  lemma EveryRunCanComplete(cfg: Config, states: seq<State>, labels: seq<Label>)
      returns (more: seq<State>, steps: seq<Label>, last: State)
    requires IsRun(cfg, states, labels) && ServableRun(cfg, labels)
    requires |states[|labels|].registered| >= |states[|labels|].issued|
    ensures Continues(cfg, states, labels, more, steps, last) && |steps| <= Left(cfg, states[|labels|])
    ensures cfg.Valid() && Complete(cfg, last)
  {
    more, steps, last := RunToRest(cfg, states, labels);
    var all, done := states + more, labels + steps;
    forall i | 0 <= i < |done|
      ensures done[i].DoRead? ==> cfg.Servable(done[i].bytes)
    {
      if i < |labels| {
        assert done[i] == labels[i];
      } else {
        assert done[i] == steps[i - |labels|];
      }
    }
    RestIsCompletionIffServable(cfg, all, done);
  }

  ghost predicate Complete(cfg: Config, s: State)
    requires cfg.Valid()
  {
    && s.rs.queue == [] && s.rs.fired == CallbacksOf(s.issued)
    && |s.readDone| == |s.issued| && multiset(s.ws.idle) == multiset(Ids(cfg.bufferNum))
  }

  // ---------------------------------------------------------------- callbacks happen

  lemma StepCalls(cfg: Config, s: State, l: Label)
    requires Sane(cfg, s) && Enabled(cfg, s, l)
    ensures CalledBack(Next(cfg, s, l)) == CalledBack(s) + if l.PopStep? then 1 else 0
  {
  }

  lemma RunCalls(cfg: Config, states: seq<State>, labels: seq<Label>, i: nat)
    requires IsRun(cfg, states, labels) && i < |labels|
    ensures CalledBack(states[i + 1]) == CalledBack(states[i]) + if labels[i].PopStep? then 1 else 0
  {
    StepCalls(cfg, states[i], labels[i]);
  }

  lemma {:induction false} FindsRise(calls: seq<int>, rises: seq<bool>, k: int) returns (i: nat)
    requires |calls| == |rises| + 1 && calls[0] <= k < calls[|rises|]
    requires forall j :: 0 <= j < |rises| ==> calls[j + 1] == calls[j] + if rises[j] then 1 else 0
    ensures i < |rises| && rises[i] && calls[i] == k
  {
    var n := |rises| - 1;
    assert n >= 0;
    assert calls[n + 1] == calls[n] + if rises[n] then 1 else 0;
    if calls[n] == k {
      i := n;
    } else {
      i := FindsRise(calls[..n + 1], rises[..n], k);
    }
  }

  /** A read that is past its callback had it called at some step. */
  lemma CallbackHappened(cfg: Config, states: seq<State>, labels: seq<Label>, k: nat) returns (i: nat)
    requires IsRun(cfg, states, labels) && k < CalledBack(states[|labels|])
    ensures i < |labels| && labels[i].PopStep? && CalledBack(states[i]) == k
  {
    var calls := seq(|states|, j requires 0 <= j < |states| => CalledBack(states[j]));
    var rises := seq(|labels|, j requires 0 <= j < |labels| => labels[j].PopStep?);
    forall j | 0 <= j < |rises|
      ensures calls[j + 1] == calls[j] + if rises[j] then 1 else 0
    {
      RunCalls(cfg, states, labels, j);
    }
    i := FindsRise(calls, rises, k);
  }
}
