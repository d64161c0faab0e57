/** The composed system: one inductive invariant, and what it says about every run. */
module Safety {
  import opened Protocol
  import opened Locking
  import opened Effects
  import opened Execution
  import opened Consent
  import opened Approvals
  import opened Resolution
  import opened Trails

  ghost predicate SystemInv(w: World) {
    && LockInv(w) && PathInv(w) && EffectInv(w) && ExecInv(w)
    && ConsentInv(w) && ApprovalInv(w) && TrailInv(w)
    && (Closed(w.cfg) ==> ResInv(w))
  }

  lemma ConsentStep(w: World, st: Step)
    requires EffectInv(w) && ExecInv(w) && ConsentInv(w) && Enabled(w, st)
    ensures ConsentInv(Apply(w, st))
  {
    if Patches(st) { ExecDeltas(w, st); }
    ConsentKept(w, st);
  }

  lemma CfgKept(w: World, st: Step)
    requires Enabled(w, st)
    ensures Apply(w, st).cfg == w.cfg
  {
  }

  lemma InvKept(w: World, w': World, st: Step)
    requires SystemInv(w) && Enabled(w, st) && w' == Apply(w, st)
    ensures SystemInv(w')
  {
    LocksKept(w, st);
    PathsKept(w, st);
    EffectsKept(w, st);
    ExecKept(w, st);
    ConsentStep(w, st);
    ApprovalsKept(w, st);
    TrailKept(w, st);
    CfgKept(w, st);
    if Closed(w.cfg) { ResKept(w, st); }
  }

  /** Every state of every run satisfies the invariant. */
  lemma {:induction false} Reachable(ws: seq<World>, steps: seq<Step>, i: nat)
    requires Run(ws, steps) && i < |ws|
    ensures SystemInv(ws[i]) && ws[i].cfg == ws[0].cfg
  {
    if i > 0 {
      Reachable(ws, steps, i - 1);
      CfgKept(ws[i - 1], steps[i - 1]);
      InvKept(ws[i - 1], ws[i], steps[i - 1]);
    }
  }
}
