/** Settings drift of an environment, and the patches that remove it. */
module Drift {
  import opened Types

  /* ---- baseline autoscaling ---- */

  /** Wanted autoscaling; a missing field is unmanaged. */
  datatype AutoscalingConfig = AutoscalingConfig(
    minReplicas: Option<int>, maxReplicas: Option<int>, concurrencyTarget: Option<int>,
    autoscalingWindow: Option<int>, scaleDownDelay: Option<int>,
    targetUtilization: Option<int>, maxScaleDownRate: Option<int>)

  /** Autoscaling as the API reports it. */
  datatype AutoscalingSettings = AutoscalingSettings(
    minReplica: int, maxReplica: int, concurrencyTarget: int,
    autoscalingWindow: Option<int>, scaleDownDelay: Option<int>,
    targetUtilization: Option<int>, maxScaleDownRate: Option<int>)

  datatype AutoscalingField =
    MinReplicas | MaxReplicas | ConcurrencyTarget | AutoscalingWindow | ScaleDownDelay
    | TargetUtilization | MaxScaleDownRate

  function Deref(p: Option<int>): int {
    if p.Some? then p.value else 0
  }

  /** What a configuration (or a patch) asks of one field. */
  function Wanted(c: AutoscalingConfig, f: AutoscalingField): Option<int> {
    match f
    case MinReplicas => c.minReplicas
    case MaxReplicas => c.maxReplicas
    case ConcurrencyTarget => c.concurrencyTarget
    case AutoscalingWindow => c.autoscalingWindow
    case ScaleDownDelay => c.scaleDownDelay
    case TargetUtilization => c.targetUtilization
    case MaxScaleDownRate => c.maxScaleDownRate
  }

  /** The stored value of one field, nil kept apart from 0. */
  function Stored(e: AutoscalingSettings, f: AutoscalingField): Option<int> {
    match f
    case MinReplicas => Some(e.minReplica)
    case MaxReplicas => Some(e.maxReplica)
    case ConcurrencyTarget => Some(e.concurrencyTarget)
    case AutoscalingWindow => e.autoscalingWindow
    case ScaleDownDelay => e.scaleDownDelay
    case TargetUtilization => e.targetUtilization
    case MaxScaleDownRate => e.maxScaleDownRate
  }

  predicate Drifted(c: AutoscalingConfig, e: AutoscalingSettings, f: AutoscalingField) {
    Wanted(c, f).Some? && Wanted(c, f).value != Deref(Stored(e, f))
  }

  predicate AnyDrift(spec: Option<AutoscalingConfig>, env: Option<AutoscalingSettings>) {
    spec.Some? && env.Some? &&
    var c, e := spec.value, env.value;
    || Drifted(c, e, MinReplicas) || Drifted(c, e, MaxReplicas) || Drifted(c, e, ConcurrencyTarget)
    || Drifted(c, e, AutoscalingWindow) || Drifted(c, e, ScaleDownDelay) || Drifted(c, e, TargetUtilization)
    || Drifted(c, e, MaxScaleDownRate)
  }

  /** Whether anything is drifted, and how many fields are. */
  method HasAutoscalingDrift(spec: Option<AutoscalingConfig>, env: Option<AutoscalingSettings>)
      returns (drift: bool, changes: nat)
    ensures drift <==> AnyDrift(spec, env)
    ensures drift <==> changes > 0
  {
    if spec.None? || env.None? {
      return false, 0;
    }
    var s, e := spec.value, env.value;
    changes := 0;
    if s.minReplicas.Some? && s.minReplicas.value != e.minReplica {
      changes := changes + 1;
    }
    if s.maxReplicas.Some? && s.maxReplicas.value != e.maxReplica {
      changes := changes + 1;
    }
    if s.concurrencyTarget.Some? && s.concurrencyTarget.value != e.concurrencyTarget {
      changes := changes + 1;
    }
    if s.autoscalingWindow.Some? && s.autoscalingWindow.value != Deref(e.autoscalingWindow) {
      changes := changes + 1;
    }
    if s.scaleDownDelay.Some? && s.scaleDownDelay.value != Deref(e.scaleDownDelay) {
      changes := changes + 1;
    }
    if s.targetUtilization.Some? && s.targetUtilization.value != Deref(e.targetUtilization) {
      changes := changes + 1;
    }
    if s.maxScaleDownRate.Some? && s.maxScaleDownRate.value != Deref(e.maxScaleDownRate) {
      changes := changes + 1;
    }
    drift := changes > 0;
  }

  /** An update request has the shape of a configuration: a missing field is not sent. */
  method ToUpdateAutoscalingSettings(c: Option<AutoscalingConfig>) returns (patch: Option<AutoscalingConfig>)
    ensures patch == AutoscalingPatch(c)
  {
    if c.None? {
      return None;
    }
    var out := AutoscalingConfig(None, None, None, None, None, None, None);
    var set' := false;
    if c.value.minReplicas.Some? {
      out := out.(minReplicas := c.value.minReplicas);
      set' := true;
    }
    if c.value.maxReplicas.Some? {
      out := out.(maxReplicas := c.value.maxReplicas);
      set' := true;
    }
    if c.value.concurrencyTarget.Some? {
      out := out.(concurrencyTarget := c.value.concurrencyTarget);
      set' := true;
    }
    if c.value.autoscalingWindow.Some? {
      out := out.(autoscalingWindow := c.value.autoscalingWindow);
      set' := true;
    }
    if c.value.scaleDownDelay.Some? {
      out := out.(scaleDownDelay := c.value.scaleDownDelay);
      set' := true;
    }
    if c.value.targetUtilization.Some? {
      out := out.(targetUtilization := c.value.targetUtilization);
      set' := true;
    }
    if c.value.maxScaleDownRate.Some? {
      out := out.(maxScaleDownRate := c.value.maxScaleDownRate);
      set' := true;
    }
    assert set' ==> Wanted(c.value, MinReplicas).Some? || Wanted(c.value, MaxReplicas).Some? ||
                    Wanted(c.value, ConcurrencyTarget).Some? || Wanted(c.value, AutoscalingWindow).Some? ||
                    Wanted(c.value, ScaleDownDelay).Some? || Wanted(c.value, TargetUtilization).Some? ||
                    Wanted(c.value, MaxScaleDownRate).Some?;
    if !set' {
      return None;
    }
    return Some(out);
  }

  /** A configuration that manages nothing is not sent at all. */
  function AutoscalingPatch(c: Option<AutoscalingConfig>): Option<AutoscalingConfig> {
    if c.Some? && (exists f :: Wanted(c.value, f).Some?) then c else None
  }

  /** What the API does with an update request. */
  function MergeAutoscaling(e: AutoscalingSettings, patch: Option<AutoscalingConfig>): AutoscalingSettings {
    if patch.None? then e else
      var p := patch.value;
      AutoscalingSettings(
        if p.minReplicas.Some? then p.minReplicas.value else e.minReplica,
        if p.maxReplicas.Some? then p.maxReplicas.value else e.maxReplica,
        if p.concurrencyTarget.Some? then p.concurrencyTarget.value else e.concurrencyTarget,
        Override(e.autoscalingWindow, p.autoscalingWindow),
        Override(e.scaleDownDelay, p.scaleDownDelay),
        Override(e.targetUtilization, p.targetUtilization),
        Override(e.maxScaleDownRate, p.maxScaleDownRate))
  }

  function Override<T>(have: Option<T>, wanted: Option<T>): Option<T> {
    if wanted.Some? then wanted else have
  }

  /** Reported drift always produces a request; merging it leaves no drift, keeps every field
      the spec leaves out, and is needed exactly when something was drifted. */
  lemma AutoscalingPatchRemovesDrift(c: AutoscalingConfig, e: AutoscalingSettings)
    ensures AnyDrift(Some(c), Some(e)) ==> AutoscalingPatch(Some(c)).Some?
    ensures var merged := MergeAutoscaling(e, AutoscalingPatch(Some(c)));
            && !AnyDrift(Some(c), Some(merged))
            && (forall f | Wanted(c, f).None? :: Stored(merged, f) == Stored(e, f))
            && (AnyDrift(Some(c), Some(e)) <==> exists f :: Deref(Stored(merged, f)) != Deref(Stored(e, f)))
  {
    var merged := MergeAutoscaling(e, AutoscalingPatch(Some(c)));
    forall f
      ensures Stored(merged, f) == if Wanted(c, f).Some? then Wanted(c, f) else Stored(e, f)
      ensures Deref(Stored(merged, f)) != Deref(Stored(e, f)) <==> Drifted(c, e, f)
    {
      assert Wanted(c, f).Some? ==> AutoscalingPatch(Some(c)) == Some(c);
    }
    if AnyDrift(Some(c), Some(e)) {
      var f :| Drifted(c, e, f);
      assert Wanted(c, f).Some?;
    }
  }

  /* ---- promotion settings ---- */

  datatype RollingConfig = RollingConfig(
    strategy: Option<string>, maxSurge: Option<int>, maxUnavailable: Option<int>, stabilization: Option<int>)

  /** Promotion settings, wanted or stored; `rolling` is the nested rolling-deploy block. The two
      promote-time flags never take part in drift and are not here. */
  datatype PromotionConfig = PromotionConfig(
    redeploy: Option<bool>, rollingDeploy: Option<bool>, rampUp: Option<bool>, rampUpDuration: Option<int>,
    cleanupStrategy: Option<string>, rolling: Option<RollingConfig>)

  datatype PromotionField =
    Redeploy | RollingDeploy | RampUp | RampUpDuration | CleanupStrategy
    | Strategy | MaxSurge | MaxUnavailable | Stabilization
  {
    predicate Nested() {
      Strategy? || MaxSurge? || MaxUnavailable? || Stabilization?
    }

  }

  datatype Value = Flag(b: bool) | Number(n: int) | Text(s: string)

  function AsFlag(p: Option<bool>): Option<Value> { if p.Some? then Some(Flag(p.value)) else None }
  function AsNumber(p: Option<int>): Option<Value> { if p.Some? then Some(Number(p.value)) else None }
  function AsText(p: Option<string>): Option<Value> { if p.Some? then Some(Text(p.value)) else None }

  const NO_ROLLING := RollingConfig(None, None, None, None)
  const NO_PROMOTION := PromotionConfig(None, None, None, None, None, None)

  /** One field, wanted or stored; a nested field of an absent block is missing. */
  function PromotionValue(c: PromotionConfig, f: PromotionField): Option<Value> {
    var r := if c.rolling.Some? then c.rolling.value else NO_ROLLING;
    match f
    case Redeploy => AsFlag(c.redeploy)
    case RollingDeploy => AsFlag(c.rollingDeploy)
    case RampUp => AsFlag(c.rampUp)
    case RampUpDuration => AsNumber(c.rampUpDuration)
    case CleanupStrategy => AsText(c.cleanupStrategy)
    case Strategy => AsText(r.strategy)
    case MaxSurge => AsNumber(r.maxSurge)
    case MaxUnavailable => AsNumber(r.maxUnavailable)
    case Stabilization => AsNumber(r.stabilization)
  }

  function ZeroOf(f: PromotionField): Value {
    match f
    case Redeploy | RollingDeploy | RampUp => Flag(false)
    case RampUpDuration | MaxSurge | MaxUnavailable | Stabilization => Number(0)
    case CleanupStrategy | Strategy => Text("")
  }

  /** The value the comparison sees: nil counts as the zero value, except that in an
      environment without a rolling-deploy block every nested field counts as different. */
  function Observed(e: PromotionConfig, f: PromotionField): Option<Value> {
    if f.Nested() && e.rolling.None? then None
    else if PromotionValue(e, f).Some? then PromotionValue(e, f)
    else Some(ZeroOf(f))
  }

  predicate PromotionDrifted(c: PromotionConfig, e: PromotionConfig, f: PromotionField) {
    PromotionValue(c, f).Some? && PromotionValue(c, f) != Observed(e, f)
  }

  function OrEmpty(env: Option<PromotionConfig>): PromotionConfig {
    if env.Some? then env.value else NO_PROMOTION
  }

  predicate AnyPromotionDrift(spec: Option<PromotionConfig>, env: Option<PromotionConfig>) {
    spec.Some? &&
    var c, e := spec.value, OrEmpty(env);
    || PromotionDrifted(c, e, Redeploy) || PromotionDrifted(c, e, RollingDeploy) || PromotionDrifted(c, e, RampUp)
    || PromotionDrifted(c, e, RampUpDuration) || PromotionDrifted(c, e, CleanupStrategy)
    || PromotionDrifted(c, e, Strategy) || PromotionDrifted(c, e, MaxSurge)
    || PromotionDrifted(c, e, MaxUnavailable) || PromotionDrifted(c, e, Stabilization)
  }

  function DerefFlag(p: Option<bool>): bool { if p.Some? then p.value else false }
  function DerefText(p: Option<string>): string { if p.Some? then p.value else "" }

  predicate AnyRollingDrift(c: PromotionConfig, e: PromotionConfig) {
    || PromotionDrifted(c, e, Strategy) || PromotionDrifted(c, e, MaxSurge)
    || PromotionDrifted(c, e, MaxUnavailable) || PromotionDrifted(c, e, Stabilization)
  }

  /** The nested block's share of the changes; in an environment without the block every wanted
      field is one. */
  method RollingDrift(spec: Option<RollingConfig>, env: Option<RollingConfig>) returns (changes: nat)
    ensures changes > 0 <==> AnyRollingDrift(NO_PROMOTION.(rolling := spec), NO_PROMOTION.(rolling := env))
  {
    changes := 0;
    if spec.None? {
      return;
    }
    var rc := spec.value;
    if env.Some? {
      var erc := env.value;
      if rc.strategy.Some? && rc.strategy.value != DerefText(erc.strategy) {
        changes := changes + 1;
      }
      if rc.maxSurge.Some? && rc.maxSurge.value != Deref(erc.maxSurge) {
        changes := changes + 1;
      }
      if rc.maxUnavailable.Some? && rc.maxUnavailable.value != Deref(erc.maxUnavailable) {
        changes := changes + 1;
      }
      if rc.stabilization.Some? && rc.stabilization.value != Deref(erc.stabilization) {
        changes := changes + 1;
      }
    } else {
      if rc.strategy.Some? {
        changes := changes + 1;
      }
      if rc.maxSurge.Some? {
        changes := changes + 1;
      }
      if rc.maxUnavailable.Some? {
        changes := changes + 1;
      }
      if rc.stabilization.Some? {
        changes := changes + 1;
      }
    }
  }

  /** What drift means field by field: nil counts as the zero value outside the nested block. */
  lemma DriftSpelledOut(c: PromotionConfig, e: PromotionConfig)
    ensures PromotionDrifted(c, e, Redeploy) <==> c.redeploy.Some? && c.redeploy.value != DerefFlag(e.redeploy)
    ensures PromotionDrifted(c, e, RollingDeploy) <==>
      c.rollingDeploy.Some? && c.rollingDeploy.value != DerefFlag(e.rollingDeploy)
    ensures PromotionDrifted(c, e, RampUp) <==> c.rampUp.Some? && c.rampUp.value != DerefFlag(e.rampUp)
    ensures PromotionDrifted(c, e, RampUpDuration) <==>
      c.rampUpDuration.Some? && c.rampUpDuration.value != Deref(e.rampUpDuration)
    ensures PromotionDrifted(c, e, CleanupStrategy) <==>
      c.cleanupStrategy.Some? && c.cleanupStrategy.value != DerefText(e.cleanupStrategy)
  {
  }

  lemma NestedAlone(c: PromotionConfig, e: PromotionConfig, f: PromotionField)
    requires f.Nested()
    ensures PromotionDrifted(c, e, f) <==>
      PromotionDrifted(NO_PROMOTION.(rolling := c.rolling), NO_PROMOTION.(rolling := e.rolling), f)
  {
  }

  method HasPromotionSettingsDrift(spec: Option<PromotionConfig>, environment: Option<PromotionConfig>)
      returns (drift: bool, changes: nat)
    ensures drift <==> AnyPromotionDrift(spec, environment)
    ensures drift <==> changes > 0
  {
    hide PromotionDrifted;
    if spec.None? {
      return false, 0;
    }
    var s := spec.value;
    var env := environment;
    if env.None? {
      env := Some(NO_PROMOTION);
    }
    var e := env.value;
    changes := 0;
    if s.redeploy.Some? && s.redeploy.value != DerefFlag(e.redeploy) {
      changes := changes + 1;
    }
    if s.rollingDeploy.Some? && s.rollingDeploy.value != DerefFlag(e.rollingDeploy) {
      changes := changes + 1;
    }
    if s.rampUp.Some? && s.rampUp.value != DerefFlag(e.rampUp) {
      changes := changes + 1;
    }
    if s.rampUpDuration.Some? && s.rampUpDuration.value != Deref(e.rampUpDuration) {
      changes := changes + 1;
    }
    if s.cleanupStrategy.Some? && s.cleanupStrategy.value != DerefText(e.cleanupStrategy) {
      changes := changes + 1;
    }
    var nested := RollingDrift(s.rolling, e.rolling);
    changes := changes + nested;
    DriftSpelledOut(s, e);
    NestedAlone(s, e, Strategy);
    NestedAlone(s, e, MaxSurge);
    NestedAlone(s, e, MaxUnavailable);
    NestedAlone(s, e, Stabilization);
    drift := changes > 0;
  }

  function RollingPatch(c: Option<RollingConfig>): Option<RollingConfig> {
    if c.Some? && c.value != NO_ROLLING then c else None
  }

  function PromotionPatch(c: Option<PromotionConfig>): Option<PromotionConfig> {
    if c.None? then None else
      var sent := c.value.(rolling := RollingPatch(c.value.rolling));
      if sent == NO_PROMOTION then None else Some(sent)
  }

  method ToUpdateRollingDeployConfig(c: Option<RollingConfig>) returns (patch: Option<RollingConfig>)
    ensures patch == RollingPatch(c)
  {
    if c.None? {
      return None;
    }
    var out := NO_ROLLING;
    var set' := false;
    if c.value.strategy.Some? {
      out := out.(strategy := c.value.strategy);
      set' := true;
    }
    if c.value.maxSurge.Some? {
      out := out.(maxSurge := c.value.maxSurge);
      set' := true;
    }
    if c.value.maxUnavailable.Some? {
      out := out.(maxUnavailable := c.value.maxUnavailable);
      set' := true;
    }
    if c.value.stabilization.Some? {
      out := out.(stabilization := c.value.stabilization);
      set' := true;
    }
    if !set' {
      return None;
    }
    return Some(out);
  }

  method ToUpdatePromotionSettings(c: Option<PromotionConfig>) returns (patch: Option<PromotionConfig>)
    ensures patch == PromotionPatch(c)
  {
    if c.None? {
      return None;
    }
    var out := NO_PROMOTION;
    var set' := false;
    if c.value.redeploy.Some? {
      out := out.(redeploy := c.value.redeploy);
      set' := true;
    }
    if c.value.rollingDeploy.Some? {
      out := out.(rollingDeploy := c.value.rollingDeploy);
      set' := true;
    }
    if c.value.rampUp.Some? {
      out := out.(rampUp := c.value.rampUp);
      set' := true;
    }
    if c.value.rampUpDuration.Some? {
      out := out.(rampUpDuration := c.value.rampUpDuration);
      set' := true;
    }
    if c.value.cleanupStrategy.Some? {
      out := out.(cleanupStrategy := c.value.cleanupStrategy);
      set' := true;
    }
    if c.value.rolling.Some? {
      var rc := ToUpdateRollingDeployConfig(c.value.rolling);
      if rc.Some? {
        out := out.(rolling := rc);
        set' := true;
      }
    }
    if !set' {
      return None;
    }
    return Some(out);
  }

  function MergeRolling(e: Option<RollingConfig>, patch: Option<RollingConfig>): Option<RollingConfig> {
    if patch.None? then e else
      var have := if e.Some? then e.value else NO_ROLLING;
      var p := patch.value;
      Some(RollingConfig(Override(have.strategy, p.strategy), Override(have.maxSurge, p.maxSurge),
                         Override(have.maxUnavailable, p.maxUnavailable),
                         Override(have.stabilization, p.stabilization)))
  }

  function MergePromotion(e: PromotionConfig, patch: Option<PromotionConfig>): PromotionConfig {
    if patch.None? then e else
      var p := patch.value;
      PromotionConfig(Override(e.redeploy, p.redeploy), Override(e.rollingDeploy, p.rollingDeploy),
                      Override(e.rampUp, p.rampUp), Override(e.rampUpDuration, p.rampUpDuration),
                      Override(e.cleanupStrategy, p.cleanupStrategy), MergeRolling(e.rolling, p.rolling))
  }

  lemma MergedPromotionValue(c: PromotionConfig, e: PromotionConfig, f: PromotionField)
    ensures PromotionValue(MergePromotion(e, PromotionPatch(Some(c))), f)
         == if PromotionValue(c, f).Some? then PromotionValue(c, f) else PromotionValue(e, f)
    ensures f.Nested() && PromotionValue(c, f).Some? ==> MergePromotion(e, PromotionPatch(Some(c))).rolling.Some?
    ensures e.rolling.Some? ==> MergePromotion(e, PromotionPatch(Some(c))).rolling.Some?
  {
    match f case _ => {}
  }

  /** Merging a request: the fields it sets read as wanted, the others as before. */
  lemma MergedPromotion(c: PromotionConfig, e: PromotionConfig)
    ensures var merged := MergePromotion(e, PromotionPatch(Some(c)));
      && (forall f :: PromotionValue(merged, f) ==
                        if PromotionValue(c, f).Some? then PromotionValue(c, f) else PromotionValue(e, f))
      && (forall f: PromotionField :: f.Nested() && PromotionValue(c, f).Some? ==> merged.rolling.Some?)
      && (e.rolling.Some? ==> merged.rolling.Some?)
  {
    hide PromotionValue, PromotionPatch, MergePromotion;
    MergedPromotionValue(c, e, Redeploy);
    forall f
      ensures var merged := MergePromotion(e, PromotionPatch(Some(c)));
        && PromotionValue(merged, f) ==
            (if PromotionValue(c, f).Some? then PromotionValue(c, f) else PromotionValue(e, f))
        && (f.Nested() && PromotionValue(c, f).Some? ==> merged.rolling.Some?)
        && (e.rolling.Some? ==> merged.rolling.Some?)
    {
      MergedPromotionValue(c, e, f);
    }
  }

  lemma NoFieldDrifted(c: PromotionConfig, e: PromotionConfig)
    ensures !AnyPromotionDrift(Some(c), Some(e)) <==> forall f :: !PromotionDrifted(c, e, f)
  {
    hide PromotionDrifted;
    if !AnyPromotionDrift(Some(c), Some(e)) {
      forall f ensures !PromotionDrifted(c, e, f) {
        match f
        case Redeploy => case RollingDeploy => case RampUp => case RampUpDuration => case CleanupStrategy =>
        case Strategy => case MaxSurge => case MaxUnavailable => case Stabilization =>
      }
    }
  }

  /** Where nothing is drifted the request changes nothing that can be observed. */
  lemma NoDriftNoChange(c: PromotionConfig, e: PromotionConfig, f: PromotionField)
    requires forall g :: !PromotionDrifted(c, e, g)
    ensures Observed(MergePromotion(e, PromotionPatch(Some(c))), f) == Observed(e, f)
  {
    var merged := MergePromotion(e, PromotionPatch(Some(c)));
    assert !PromotionDrifted(c, e, Strategy) && !PromotionDrifted(c, e, MaxSurge)
        && !PromotionDrifted(c, e, MaxUnavailable) && !PromotionDrifted(c, e, Stabilization);
    assert e.rolling.None? ==> merged.rolling.None?;
    MergedPromotionValue(c, e, f);
    assert !PromotionDrifted(c, e, f);
  }

  /** The same three facts for promotion settings, the nested block included: present, absent
      from the environment, or absent from the spec. */
  lemma PromotionPatchRemovesDrift(c: PromotionConfig, env: Option<PromotionConfig>)
    ensures AnyPromotionDrift(Some(c), env) ==> PromotionPatch(Some(c)).Some?
    ensures var merged := MergePromotion(OrEmpty(env), PromotionPatch(Some(c)));
            && !AnyPromotionDrift(Some(c), Some(merged))
            && (forall f | PromotionValue(c, f).None? :: PromotionValue(merged, f) == PromotionValue(OrEmpty(env), f))
            && (AnyPromotionDrift(Some(c), env) <==> exists f :: Observed(merged, f) != Observed(OrEmpty(env), f))
  {
    var e := OrEmpty(env);
    var merged := MergePromotion(e, PromotionPatch(Some(c)));
    MergedPromotion(c, e);
    NoFieldDrifted(c, e);
    NoFieldDrifted(c, merged);
    hide PromotionValue, PromotionPatch, MergePromotion, AnyPromotionDrift;
    assert AnyPromotionDrift(Some(c), env) == AnyPromotionDrift(Some(c), Some(e)) by { SameDrift(Some(c), env); }
    if f :| PromotionDrifted(c, e, f) {
      DriftIsSent(c, f);
      assert Observed(merged, f) == PromotionValue(merged, f);
    } else {
      forall f ensures Observed(merged, f) == Observed(e, f) {
        NoDriftNoChange(c, e, f);
      }
    }
  }

  lemma SameDrift(spec: Option<PromotionConfig>, env: Option<PromotionConfig>)
    ensures AnyPromotionDrift(spec, env) == AnyPromotionDrift(spec, Some(OrEmpty(env)))
  {
    hide PromotionDrifted;
  }

  lemma DriftIsSent(c: PromotionConfig, f: PromotionField)
    requires PromotionValue(c, f).Some?
    ensures PromotionPatch(Some(c)).Some?
  {
  }
}
