/**
 Timeout tiers: from an arbitrary JSON value and the DmMode/road selector to the pose and phone
 timeouts in force, with the range every one of them stays in.
 */
module DmConfig {
  import opened Wrappers
  import opened Extremes

  const TIMEOUT_MIN := 10.0
  const TIMEOUT_MAX := 14400.0
  const DISTRACTED_TIME: real := 11.0
  const DISTRACTED_PRE := 8.0
  const DISTRACTED_PROMPT := 6.0
  const DT_DMON := 0.05

  datatype Json =
    | Null
    | Bool(b: bool)
    | Number(n: real)
    | NonFinite
    | HugeInt // an integer too large for `float`, which raises on it
    | Text(s: string)
    | List(items: seq<Json>)
    | Object(fields: map<string, Json>)

  type Seconds = t: real | t > 0.0 witness 1.0

  datatype Timeouts = Timeouts(pose: Seconds, phone: Seconds)

  datatype Tier = Highway | Relaxed

  datatype Config = Config(tier: Option<(Tier, Timeouts)>, highway: Timeouts, relaxed: Timeouts)

  function TierDefaults(t: Tier): Timeouts {
    if t == Highway then Timeouts(30.0, 60.0) else Timeouts(60.0, 120.0)
  }

  function TierName(t: Tier): string {
    if t == Highway then "highway" else "relaxed"
  }

  /** `dict.get`: an absent key reads as null. */
  function Get(fields: map<string, Json>, key: string): Json {
    if key in fields then fields[key] else Null
  }

  function SanitizeTimeout(value: Json, fallback: Seconds): Seconds {
    match value
    case Number(v) => if v < TIMEOUT_MIN then TIMEOUT_MIN else if v > TIMEOUT_MAX then TIMEOUT_MAX else v
    case _ => fallback
  }

  function ResolveTierTimeouts(data: map<string, Json>, t: Tier): Timeouts {
    var section := Get(data, TierName(t));
    var fields := if section.Object? then section.fields else map[];
    Timeouts(SanitizeTimeout(Get(fields, "pose_s"), TierDefaults(t).pose),
             SanitizeTimeout(Get(fields, "phone_s"), TierDefaults(t).phone))
  }

  /** Sanitizing one of the tier's fields raises, and the loader falls back to the strict defaults. */
  predicate ResolvingRaises(data: map<string, Json>, t: Tier) {
    var section := Get(data, TierName(t));
    section.Object? && (Get(section.fields, "pose_s").HugeInt? || Get(section.fields, "phone_s").HugeInt?)
  }

  predicate RelaxedEnabled(data: map<string, Json>) {
    var section := Get(data, "relaxed");
    section.Object? && Get(section.fields, "enabled") == Bool(true)
  }

  const STRICT := Config(None, TierDefaults(Highway), TierDefaults(Relaxed))

  /** `file` is the parsed configuration, or None when there is none that can be read. */
  function LoadDmTimeouts(file: Option<Json>): Config {
    if file.None? || !file.value.Object? || file.value.fields == map[] then STRICT
    else
      var data := file.value.fields;
      if ResolvingRaises(data, Highway) || (RelaxedEnabled(data) && ResolvingRaises(data, Relaxed)) then STRICT
      else
      var highway := ResolveTierTimeouts(data, Highway);
      var relaxed := if RelaxedEnabled(data) then ResolveTierTimeouts(data, Relaxed) else STRICT.relaxed;
      var mode := Get(data, "mode");
      var tier :=
        if mode == Text("highway") then Some((Highway, highway))
        else if mode == Text("relaxed") && RelaxedEnabled(data) then Some((Relaxed, relaxed))
        else None;
      Config(tier, highway, relaxed)
  }

  // ----- the timeouts in force -----

  /** The tier timeouts that apply, or None for the stock strict ones. */
  function TierInForce(c: Config, mode: int, roadRelaxed: bool): Option<Timeouts> {
    if c.tier.Some? then
      if c.tier.value.0 == Relaxed || roadRelaxed then Some(c.tier.value.1) else None
    else if mode == 2 then Some(c.relaxed)
    else if mode == 1 && roadRelaxed then Some(c.highway)
    else None
  }

  /** Decay steps and alert thresholds of one regime; thresholds are fractions of the timeout. */
  datatype Regime = Regime(poseStep: real, phoneStep: real,
                           posePre: real, posePrompt: real, phonePre: real, phonePrompt: real)

  function RegimeOf(c: Config, mode: int, roadRelaxed: bool): Regime {
    var tier := TierInForce(c, mode, roadRelaxed);
    if tier.Some? then
      var p, q := tier.value.pose, tier.value.phone;
      Regime(DT_DMON / p, DT_DMON / q,
             Min(60.0, p / 2.0) / p, Min(30.0, p / 4.0) / p,
             Min(120.0, q / 2.0) / q, Min(60.0, q / 4.0) / q)
    else
      var t := DISTRACTED_TIME;
      Regime(DT_DMON / t, DT_DMON / t, DISTRACTED_PRE / t, DISTRACTED_PROMPT / t, DISTRACTED_PRE / t, DISTRACTED_PROMPT / t)
  }

  /** The pose timeout in force, in seconds. */
  function PoseTimeout(c: Config, mode: int, roadRelaxed: bool): Seconds {
    var tier := TierInForce(c, mode, roadRelaxed);
    if tier.Some? then tier.value.pose else DISTRACTED_TIME
  }

  function PhoneTimeout(c: Config, mode: int, roadRelaxed: bool): Seconds {
    var tier := TierInForce(c, mode, roadRelaxed);
    if tier.Some? then tier.value.phone else DISTRACTED_TIME
  }

  predicate InRange(t: real) {
    10.0 <= t <= 14400.0
  }

  /** A usable regime: a counter falls in small steps and meets green, orange and red apart. */
  predicate Graded(step: real, pre: real, prompt: real) {
    0.0 < step <= 0.005 && step < prompt && prompt + step < pre && pre + step < 1.0
  }

  predicate RegimeOk(r: Regime) {
    Graded(r.poseStep, r.posePre, r.posePrompt) && Graded(r.phoneStep, r.phonePre, r.phonePrompt)
  }

  /** Whatever the file holds, every configured timeout lies between 10 s and 4 h. */
  lemma ConfigInRange(file: Option<Json>)
    ensures var c := LoadDmTimeouts(file);
      && InRange(c.highway.pose) && InRange(c.highway.phone) && InRange(c.relaxed.pose) && InRange(c.relaxed.phone)
      && (c.tier.Some? ==> InRange(c.tier.value.1.pose) && InRange(c.tier.value.1.phone))
  {
  }

  /** The value a field configures: itself within 10 s to 4 h, or the nearer bound; what is no number leaves `fallback`. */
  predicate Configures(value: Json, fallback: real, t: real) {
    if !value.Number? then t == fallback
    else if value.n < 10.0 then t == 10.0
    else if value.n > 14400.0 then t == 14400.0
    else t == value.n
  }

  /** The field `key` of the section `name` of a configuration. */
  function FieldOf(data: map<string, Json>, name: string, key: string): Json {
    if name in data && data[name].Object? && key in data[name].fields then data[name].fields[key] else Null
  }

  /** A timeout that would be read is an integer too large to convert. */
  predicate Unreadable(data: map<string, Json>) {
    || FieldOf(data, "highway", "pose_s").HugeInt? || FieldOf(data, "highway", "phone_s").HugeInt?
    || (FieldOf(data, "relaxed", "enabled") == Bool(true)
        && (FieldOf(data, "relaxed", "pose_s").HugeInt? || FieldOf(data, "relaxed", "phone_s").HugeInt?))
  }

  /**
   What a configuration file says is what applies: the highway tier from its fields, the relaxed tier from
   its fields if `relaxed.enabled` is true and else at its defaults, and the tier named by `mode`.
   */
  lemma ConfigAsWritten(data: map<string, Json>)
    requires !Unreadable(data)
    ensures var c := LoadDmTimeouts(Some(Object(data))); var enabled := FieldOf(data, "relaxed", "enabled") == Bool(true);
      && Configures(FieldOf(data, "highway", "pose_s"), 30.0, c.highway.pose)
      && Configures(FieldOf(data, "highway", "phone_s"), 60.0, c.highway.phone)
      && Configures(if enabled then FieldOf(data, "relaxed", "pose_s") else Null, 60.0, c.relaxed.pose)
      && Configures(if enabled then FieldOf(data, "relaxed", "phone_s") else Null, 120.0, c.relaxed.phone)
      && c.tier == if "mode" in data && data["mode"] == Text("highway") then Some((Highway, c.highway))
                   else if "mode" in data && data["mode"] == Text("relaxed") && enabled then Some((Relaxed, c.relaxed))
                   else None
  {
    assert "highway" != "relaxed";
  }

  /** Without a file that holds readable timeouts everything is strict: 30 and 60 s, 60 and 120 s, and no tier. */
  lemma OtherwiseStrict(file: Option<Json>)
    requires file.None? || !file.value.Object? || file.value.fields == map[] || Unreadable(file.value.fields)
    ensures LoadDmTimeouts(file) == Config(None, Timeouts(30.0, 60.0), Timeouts(60.0, 120.0))
  {
  }

  // ----- what the regime means in seconds -----

  /** Red after `t` seconds; green `pre` and orange `prompt` seconds before it. */
  predicate Leads(step: real, preAt: real, promptAt: real, t: real, pre: real, prompt: real) {
    step * t == 0.05 && preAt * t == pre && promptAt * t == prompt
  }

  /** The stock timing: 11 s, green at 3 s and orange at 5 s. */
  predicate Stock(r: Regime) {
    && Leads(r.poseStep, r.posePre, r.posePrompt, 11.0, 8.0, 6.0)
    && Leads(r.phoneStep, r.phonePre, r.phonePrompt, 11.0, 8.0, 6.0)
  }

  /** The timing of a tier, with lead times that short timeouts cap. */
  predicate Tiered(r: Regime, t: Timeouts) {
    && Leads(r.poseStep, r.posePre, r.posePrompt, t.pose, Min(60.0, t.pose / 2.0), Min(30.0, t.pose / 4.0))
    && Leads(r.phoneStep, r.phonePre, r.phonePrompt, t.phone, Min(120.0, t.phone / 2.0), Min(60.0, t.phone / 4.0))
  }

  /** The relaxed tier leaves its defaults, or applies by JSON, only with `relaxed.enabled` set to true. */
  lemma RelaxedIsOptIn(file: Option<Json>)
    requires !(file.Some? && file.value.Object? && RelaxedEnabled(file.value.fields))
    ensures LoadDmTimeouts(file).relaxed == TierDefaults(Relaxed)
    ensures LoadDmTimeouts(file).tier.Some? ==> LoadDmTimeouts(file).tier.value.0 == Highway
  {
  }

  lemma GradedTier(t: Seconds, pre: real, prompt: real)
    requires InRange(t) && 30.0 <= prompt && 2.0 * prompt == pre && pre <= 120.0
    ensures Graded(DT_DMON / t, Min(pre, t / 2.0) / t, Min(prompt, t / 4.0) / t)
  {
    var lo, hi := Min(prompt, t / 4.0), Min(pre, t / 2.0);
    assert 2.5 <= lo && lo + 2.5 <= hi && hi <= t / 2.0;
    DivideOrdered(0.05, lo, t);
    DivideOrdered(lo + 0.05, hi, t);
    DivideOrdered(hi + 0.05, t, t);
    assert 0.05 / t <= 0.005 by { assert 0.05 / t * t == 0.05; }
    assert (lo + 0.05) / t == lo / t + 0.05 / t;
    assert (hi + 0.05) / t == hi / t + 0.05 / t;
    assert t / t == 1.0;
  }

  lemma DivideOrdered(a: real, b: real, t: Seconds)
    requires a < b
    ensures a / t < b / t
  {
    assert a / t * t == a && b / t * t == b;
  }

  /** For any configuration, mode and road the timeouts in force are 11 s or in range, and the regime is graded. */
  lemma RegimeInRange(file: Option<Json>, mode: int, roadRelaxed: bool)
    ensures var c := LoadDmTimeouts(file);
      var p, q := PoseTimeout(c, mode, roadRelaxed), PhoneTimeout(c, mode, roadRelaxed);
      && (p == 11.0 || InRange(p)) && (q == 11.0 || InRange(q))
      && RegimeOk(RegimeOf(c, mode, roadRelaxed))
      && RegimeOf(c, mode, roadRelaxed).poseStep == DT_DMON / p
      && RegimeOf(c, mode, roadRelaxed).phoneStep == DT_DMON / q
  {
    ConfigInRange(file);
    var c := LoadDmTimeouts(file);
    var tier := TierInForce(c, mode, roadRelaxed);
    if tier.Some? {
      GradedTier(tier.value.pose, 60.0, 30.0);
      GradedTier(tier.value.phone, 120.0, 60.0);
    }
  }
}
