// The farm engine under the lifecycle protocol: what the engine keeps over a run of
// intents, the whole server keeps over every interleaving.
module FarmLifecycle {
  import opened Common
  import opened Lifecycle
  import opened LifecycleSafety
  import opened LifecycleTheorems
  import FS = FarmState
  import FA = FarmAdvance
  import FX = FarmActions
  import K = Campaign

  function StyleName(style: FS.NameStyle): string {
    match style
    case Traditional => ""
    case Leaf => "leaf"
    case Gold => "gold"
    case Sky => "sky"
    case Rose => "rose"
    case Violet => "violet"
    case PurpleWave => "purple_wave"
    case UnknownStyle => "?"
  }

  // The engine as the protocol sees it. Encoding is an inverse pair; a payload is
  // modelled by the save it holds.
  function FarmRules(e: FS.Env): Rules<FS.Save, FX.Action, FS.Save> {
    Rules((seed, now) => FS.New(e, seed, now), (s: FS.Save, now) => now > s.updatedAt,
          (s, now) => FA.Advance(e, s, now).0, (s, now, a) => FX.Act(e, s, now, a),
          (s: FS.Save) => s, b => Some(b),
          (s: FS.Save) => Board(s.coins, s.lifetimeEarnings, s.rebirths, s.farmName, s.contractsCompleted,
                                StyleName(s.nameStyle)))
  }

  // A save whose clock has not moved is untouched, and a refused intent changes nothing.
  lemma FarmRulesAreLawful(e: FS.Env)
    ensures Lawful(FarmRules(e))
  {
    hide FA.SettlePlots, FA.Prelude, FA.CheckAchievements, FX.Do;
  }

  ghost predicate EverySaveKept(e: FS.Env, w: World<FS.Save, FS.Save>) {
    forall k :: var s := StateOf(FarmRules(e), w, k); s.Some? ==> K.Kept(s.value)
  }

  lemma EffectKeeps(e: FS.Env, w: World<FS.Save, FS.Save>, step: Step<FX.Action>, k: Key)
    requires Enabled(w, step) && Inv(FarmRules(e), w)
    requires var s := StateOf(FarmRules(e), w, k); s.Some? ==> K.Kept(s.value)
    ensures var g := FarmRules(e);
      var s, r := StateOf(g, w, k), ReplayOne(g, StateOf(g, w, k), EffectOf(g, w, step), k);
      && (r.Some? ==> K.Kept(r.value))
      && (s.Some? && r.Some? && (EffectOf(g, w, step).Create? ==> EffectOf(g, w, step).key != k) ==> K.Progress(s.value, r.value))
  {
    hide K.Kept, FA.Advance, FX.Act, FS.New, K.Progress, Inv;
    var g := FarmRules(e);
    var s := StateOf(g, w, k);
    NewIsKept(e);
    if s.Some? {
      Still(s.value);
      forall now ensures K.Kept(FA.Advance(e, s.value, now).0) && K.Progress(s.value, FA.Advance(e, s.value, now).0) {
        K.PlayKeeps(e, s.value, K.Tick(now));
      }
      forall now, a
        ensures var r := FX.Act(e, FA.Advance(e, s.value, now).0, now, a).0; K.Kept(r) && K.Progress(s.value, r)
      {
        K.PlayKeeps(e, s.value, K.Intent(now, a));
      }
    }
  }

  lemma NewIsKept(e: FS.Env)
    ensures forall seed, now :: K.Kept(FS.New(e, seed, now))
  {
    forall seed, now ensures K.Kept(FS.New(e, seed, now)) {
      K.ANewSaveIsKept(e, seed, now);
    }
  }

  lemma Still(s: FS.Save)
    ensures K.Progress(s, s)
  {
  }

  // A keyed save, once there, stays and never loses lifetime earnings or a contract.
  ghost predicate Grown(e: FS.Env, w: World<FS.Save, FS.Save>, w': World<FS.Save, FS.Save>, k: Key) {
    var s, r := StateOf(FarmRules(e), w, k), StateOf(FarmRules(e), w', k);
    k.Keyed? && s.Some? ==>
      && r.Some? && s.value.lifetimeEarnings <= r.value.lifetimeEarnings
      && s.value.contractsCompleted <= r.value.contractsCompleted
  }

  lemma StepKeepsEverySave(e: FS.Env, w: World<FS.Save, FS.Save>, step: Step<FX.Action>)
    requires Enabled(w, step) && Inv(FarmRules(e), w) && EverySaveKept(e, w)
    ensures var w' := Apply(FarmRules(e), w, step);
      Inv(FarmRules(e), w') && EverySaveKept(e, w') && forall k :: Grown(e, w, w', k)
  {
    hide K.Kept, Inv, EffectOf, StateOf, Apply, Enabled, Lawful, FarmRules;
    var g := FarmRules(e);
    FarmRulesAreLawful(e);
    StepRefines(g, w, step);
    forall k ensures var r := StateOf(g, Apply(g, w, step), k); r.Some? ==> K.Kept(r.value) {
      OneEffect(g, w, Apply(g, w, step), EffectOf(g, w, step), k);
      EffectKeeps(e, w, step, k);
    }
    forall k ensures Grown(e, w, Apply(g, w, step), k) {
      OneEffect(g, w, Apply(g, w, step), EffectOf(g, w, step), k);
      EffectKeeps(e, w, step, k);
    }
  }

  // Whatever the interleaving of attaches, intents, ticks, autosaves, detaches and
  // shutdowns: every save's ledger balances, its campaign is in order and its contract
  // unbroken, and the ranked metric never falls.
  lemma {:induction false} EveryInterleavingKeepsEverySave(
    e: FS.Env, w: World<FS.Save, FS.Save>, steps: seq<Step<FX.Action>>, k: Key)
    requires Inv(FarmRules(e), w) && EverySaveKept(e, w) && Legal(FarmRules(e), w, steps)
    ensures EverySaveKept(e, Run(FarmRules(e), w, steps)) && Grown(e, w, Run(FarmRules(e), w, steps), k)
    decreases |steps|
  {
    hide EverySaveKept, Inv, StateOf, Apply, Enabled, FarmRules;
    if steps != [] {
      var w' := Apply(FarmRules(e), w, steps[0]);
      StepKeepsEverySave(e, w, steps[0]);
      EveryInterleavingKeepsEverySave(e, w', steps[1..], k);
      assert Grown(e, w, w', k);
    }
  }

  // From boot, on a store whose rows hold kept saves.
  lemma TheServerKeepsEverySave(e: FS.Env, w: World<FS.Save, FS.Save>, steps: seq<Step<FX.Action>>, k: Key)
    requires Init(w) && Legal(FarmRules(e), w, steps)
    requires forall key :: key in w.store ==> K.Kept(w.store[key].payload)
    ensures EverySaveKept(e, Run(FarmRules(e), w, steps)) && Grown(e, w, Run(FarmRules(e), w, steps), k)
  {
    hide K.Kept;
    InitEstablishes(FarmRules(e), w);
    EveryInterleavingKeepsEverySave(e, w, steps, k);
  }
}
