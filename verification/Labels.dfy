/** Container labels and the policy they spell (src/labels.rs), and the test for
    freshdock's own container (src/selfid.rs). */
module Labels {
  import opened Wrappers
  import opened Text

  /** The label keys freshdock reads; any other key is opaque. `Timeout` and
      `Command` are the two labels of one hook phase, in either namespace. */
  datatype Key =
    | Enable
    | ModeKey
    | Notify
    | Schedule
    | Cleanup
    | Command(phase: Phase, watchtower: bool)
    | Timeout(phase: Phase, watchtower: bool)
    | WatchtowerEnable
    | WatchtowerMonitorOnly
    | ComposeProject
    | ComposeService
    | ComposeDependsOn
    | ComposeOneoff
    | OtherLabel(name: string)

  datatype Phase = PreUpdate | PostUpdate

  type LabelMap = map<Key, string>

  datatype Mode = Live | Nightly | Weekly | Monthly | Watch | Off

  /** A hook command; `timeout` is in seconds, `None` when unlimited. */
  datatype Hook = Hook(command: string, timeout: Option<nat>)

  datatype LifecycleHooks = LifecycleHooks(preUpdate: Option<Hook>, postUpdate: Option<Hook>)

  datatype Policy = Policy(
    enabled: bool,
    mode: Mode,
    notify: bool,
    schedule: Option<string>,
    cleanup: bool,
    hooks: LifecycleHooks,
    autoEnabled: bool)

  datatype PolicyDefaults = PolicyDefaults(mode: Option<Mode>, cleanup: bool, watchAll: bool)

  datatype LabelError = InvalidBool(key: Key) | InvalidMode | InvalidTimeout(key: Key)

  const NO_HOOKS: LifecycleHooks := LifecycleHooks(None, None)
  const DISABLED: Policy := Policy(false, Off, false, None, false, NO_HOOKS, false)
  const DEFAULT_HOOK_TIMEOUT: nat := 60
  const U64_LIMIT: nat := 0x1_0000_0000_0000_0000

  function Normal(value: string): string { Lower(Trim(value)) }

  function ParseBool(key: Key, value: string): Result<bool, LabelError> {
    if Normal(value) == "true" then Success(true)
    else if Normal(value) == "false" then Success(false)
    else Failure(InvalidBool(key))
  }

  /** A boolean label that may be absent. */
  function OptionalBool(labels: LabelMap, key: Key, default: bool): Result<bool, LabelError> {
    if key in labels then ParseBool(key, labels[key]) else Success(default)
  }

  function ParseMode(value: string): Result<Mode, LabelError> {
    match Normal(value)
    case "live" => Success(Live)
    case "nightly" => Success(Nightly)
    case "weekly" => Success(Weekly)
    case "monthly" => Success(Monthly)
    case "watch" => Success(Watch)
    case "off" => Success(Off)
    case _ => Failure(InvalidMode)
  }

  /** `str::parse::<u64>`, then a saturating multiplication by the unit. */
  function ParseTimeout(key: Key, value: string, unit: nat): Result<Option<nat>, LabelError> {
    var trimmed := Trim(value);
    var digits := if trimmed != "" && trimmed[0] == '+' then trimmed[1..] else trimmed;
    if !IsDigits(digits) || DigitsValue(digits) >= U64_LIMIT then Failure(InvalidTimeout(key))
    else if DigitsValue(digits) == 0 then Success(None)
    else if DigitsValue(digits) * unit >= U64_LIMIT then Success(Some(U64_LIMIT - 1))
    else Success(Some(DigitsValue(digits) * unit))
  }

  /** The freshdock labels win over their watchtower spellings, one by one; a
      timeout is checked even when there is no command. */
  function ParseHook(labels: LabelMap, phase: Phase): Result<Option<Hook>, LabelError> {
    var timeout :=
      if Timeout(phase, false) in labels then ParseTimeout(Timeout(phase, false), labels[Timeout(phase, false)], 1)
      else if Timeout(phase, true) in labels then ParseTimeout(Timeout(phase, true), labels[Timeout(phase, true)], 60)
      else Success(Some(DEFAULT_HOOK_TIMEOUT));
    if timeout.Failure? then Failure(timeout.error)
    else if Command(phase, false) in labels then Success(Some(Hook(labels[Command(phase, false)], timeout.value)))
    else if Command(phase, true) in labels then Success(Some(Hook(labels[Command(phase, true)], timeout.value)))
    else Success(None)
  }

  /** The enable decision: either label states intent, only their absence falls
      back to `watch_all`. */
  function Explicit(labels: LabelMap): Result<Option<bool>, LabelError> {
    var key := if Enable in labels then Enable else WatchtowerEnable;
    if key !in labels then Success(None)
    else
      match ParseBool(key, labels[key])
      case Success(b) => Success(Some(b))
      case Failure(e) => Failure(e)
  }

  function ModeOf(labels: LabelMap, defaults: PolicyDefaults): Result<Mode, LabelError> {
    var monitor := OptionalBool(labels, WatchtowerMonitorOnly, false);
    if monitor.Failure? then Failure(monitor.error)
    else if ModeKey in labels then ParseMode(labels[ModeKey])
    else if monitor.value || defaults.mode.None? then Success(Watch)
    else Success(defaults.mode.value)
  }

  function ParsePolicy(labels: LabelMap, defaults: PolicyDefaults): Result<Policy, LabelError> {
    var explicit := Explicit(labels);
    if explicit.Failure? then Failure(explicit.error)
    else
      var enabled := if explicit.value.Some? then explicit.value.value else defaults.watchAll;
      if !enabled then Success(DISABLED)
      else
        var mode := ModeOf(labels, defaults);
        var notify := OptionalBool(labels, Notify, false);
        var cleanup := OptionalBool(labels, Cleanup, defaults.cleanup);
        var pre := ParseHook(labels, PreUpdate);
        var post := ParseHook(labels, PostUpdate);
        if mode.Failure? then Failure(mode.error)
        else if notify.Failure? then Failure(notify.error)
        else if cleanup.Failure? then Failure(cleanup.error)
        else if pre.Failure? then Failure(pre.error)
        else if post.Failure? then Failure(post.error)
        else
          var schedule :=
            if Schedule in labels then Some(labels[Schedule]) else None;
          Success(Policy(true, mode.value, notify.value, schedule, cleanup.value,
                         LifecycleHooks(pre.value, post.value), explicit.value.None?))
  }

  function ValueOf(labels: LabelMap, key: Key): string {
    if key in labels then Normal(labels[key]) else ""
  }

  predicate ExplicitlyOptsOut(labels: LabelMap) {
    || ValueOf(labels, Enable) == "false"
    || ValueOf(labels, WatchtowerEnable) == "false"
    || ValueOf(labels, ModeKey) == "off"
  }

  /** Labels that opt out and yet spell a policy that acts (enabled, not off):
      exactly those where `freshdock.enable` says true over a watchtower enable
      label that says false. */
  lemma OptOutVersusPolicy(labels: LabelMap, defaults: PolicyDefaults)
    requires ParsePolicy(labels, defaults).Success?
    requires ParsePolicy(labels, defaults).value.enabled && ParsePolicy(labels, defaults).value.mode != Off
    ensures ExplicitlyOptsOut(labels) <==>
            ValueOf(labels, Enable) == "true" && ValueOf(labels, WatchtowerEnable) == "false"
  {
    var p := ParsePolicy(labels, defaults).value;
    assert p.mode == ModeOf(labels, defaults).value;
    if ModeKey in labels {
      assert ParseMode(labels[ModeKey]) == Success(p.mode);
    }
    if Enable in labels {
      assert ParseBool(Enable, labels[Enable]) == Success(true);
    } else if WatchtowerEnable in labels {
      assert ParseBool(WatchtowerEnable, labels[WatchtowerEnable]) == Success(true);
    }
  }

  /** Such labels, under any defaults. */
  lemma OptOutExample(defaults: PolicyDefaults)
    ensures
      var labels: LabelMap := map[Enable := "true", WatchtowerEnable := "false", ModeKey := "live"];
      && ExplicitlyOptsOut(labels)
      && ParsePolicy(labels, defaults).Success?
      && ParsePolicy(labels, defaults).value.enabled && ParsePolicy(labels, defaults).value.mode == Live
  {
    hide Normal, ParseHook;
    var labels: LabelMap := map[Enable := "true", WatchtowerEnable := "false", ModeKey := "live"];
    NormalOf("true");
    NormalOf("false");
    NormalOf("live");
    NoHook(labels, PreUpdate);
    NoHook(labels, PostUpdate);
  }

  /** Two labels make a policy, whatever the defaults. */
  lemma LiveByLabel(labels: LabelMap, defaults: PolicyDefaults)
    requires Enable in labels && labels[Enable] == "true" && ModeKey in labels && labels[ModeKey] == "live"
    requires WatchtowerEnable !in labels && WatchtowerMonitorOnly !in labels
    requires Notify !in labels && Cleanup !in labels
    requires forall phase, watchtower :: Command(phase, watchtower) !in labels && Timeout(phase, watchtower) !in labels
    ensures ParsePolicy(labels, defaults).Success? && !ExplicitlyOptsOut(labels)
    ensures ParsePolicy(labels, defaults).value.enabled && ParsePolicy(labels, defaults).value.mode == Live
  {
    hide Normal, ParseHook;
    NormalOf("true");
    NormalOf("live");
    NoHook(labels, PreUpdate);
    NoHook(labels, PostUpdate);
  }

  lemma NoHook(labels: LabelMap, phase: Phase)
    requires forall watchtower :: Command(phase, watchtower) !in labels && Timeout(phase, watchtower) !in labels
    ensures ParseHook(labels, phase) == Success(None)
  {
  }

  lemma NormalOf(s: string)
    requires s in {"true", "false", "live"}
    ensures Normal(s) == s
  {
    assert TrimStart(s) == s && TrimEnd(s) == s;
    assert Lower(s) == s;
  }

  // ----- which container is freshdock itself -----

  predicate IsHex(c: char) { IsDigit(c) || 'a' <= c <= 'f' || 'A' <= c <= 'F' }

  predicate LooksLikeContainerId(name: string) {
    |name| >= 12 && forall i :: 0 <= i < |name| ==> IsHex(name[i])
  }

  predicate IsOwnContainer(prefix: Option<string>, id: string) {
    prefix.Some? && LooksLikeContainerId(prefix.value) && Lower(prefix.value) <= id
  }
}
