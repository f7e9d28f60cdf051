/** The benchmark's command line: which argument vectors Parse accepts, and what it makes of them. */
module CommandLine {
  import opened Decimals
  import opened Prelude

  const MAXIMUM_RUN_ID_BYTES := 128

  datatype Mode = Run | Serve | WorldHostLifecycle | ServerChild

  datatype Options = Options(
    mode: Mode, configPath: string, runId: string, commandPipeHandle: uint64, eventPipeHandle: uint64)

  datatype Flag = Config | RunId | CommandPipeHandle | EventPipeHandle

  datatype ParseError =
    | ModeRequired
    | UnknownMode(text: string)
    | NullArgument
    | UnknownArgument(text: string)
    | Repeated(flag: Flag)
    | ValueRequired(flag: Flag)
    | RunIdTooLong
    | ServerChildIncomplete
    | ServerChildOnly
    | ConfigRequired

  function ModeText(mode: Mode): string {
    match mode
    case Run => "run"
    case Serve => "serve"
    case WorldHostLifecycle => "world-host-lifecycle"
    case ServerChild => "--server-child"
  }

  function FlagText(flag: Flag): string {
    match flag
    case Config => "--config"
    case RunId => "--run-id"
    case CommandPipeHandle => "--command-pipe-handle"
    case EventPipeHandle => "--event-pipe-handle"
  }

  // ---------- Numbers ----------

  /** A whole text of decimal digits worth 1 to 2^64 - 1. */
  function ParsePositiveHandle(text: string): Option<uint64> {
    if IsNumber(text) && 0 < DecimalValue(text) <= UINT64_MAX then Some(DecimalValue(text)) else None
  }

  // ---------- Arguments ----------

  predicate StartsWithDashes(text: string) {
    |text| >= 2 && text[0] == '-' && text[1] == '-'
  }

  /** A text that may follow a flag. */
  predicate IsValue(text: string) {
    text != [] && !StartsWithDashes(text)
  }

  predicate HasValue(arguments: seq<Option<string>>) {
    |arguments| >= 2 && arguments[1].Some? && IsValue(arguments[1].value)
  }

  predicate ValueFits(flag: Flag, value: string) {
    match flag
    case Config => true
    case RunId => |value| <= MAXIMUM_RUN_ID_BYTES
    case _ => ParsePositiveHandle(value).Some?
  }

  datatype Setting = Setting(flag: Flag, value: string) {
    predicate Valid() {
      IsValue(value) && ValueFits(flag, value)
    }
  }

  function FlagOf(text: string): (flag: Option<Flag>)
    ensures flag.Some? ==> FlagText(flag.value) == text
    ensures flag.None? ==> forall f: Flag :: FlagText(f) != text
  {
    if text == FlagText(Config) then Some(Config)
    else if text == FlagText(RunId) then Some(RunId)
    else if text == FlagText(CommandPipeHandle) then Some(CommandPipeHandle)
    else if text == FlagText(EventPipeHandle) then Some(EventPipeHandle)
    else None
  }

  lemma FlagTextsDiffer()
    ensures forall f: Flag, g: Flag :: FlagText(f) == FlagText(g) ==> f == g
  {
    assert FlagText(Config)[2] == 'c' && FlagText(RunId)[2] == 'r' && FlagText(EventPipeHandle)[2] == 'e';
    assert FlagText(CommandPipeHandle)[4] == 'm' && FlagText(Config)[4] == 'n';
  }

  lemma FlagIsKnown(flag: Flag)
    ensures FlagOf(FlagText(flag)) == Some(flag)
  {
    FlagTextsDiffer();
  }

  /** The settings in the arguments after the mode, or the first complaint about them. */
  function Settings(arguments: seq<Option<string>>, seen: set<Flag>): Result<seq<Setting>, ParseError> {
    if arguments == [] then Ok([])
    else if arguments[0].None? then Err(NullArgument)
    else
      var flag := FlagOf(arguments[0].value);
      if flag.None? then Err(UnknownArgument(arguments[0].value))
      else if flag.value in seen then Err(Repeated(flag.value))
      else if !HasValue(arguments) then Err(ValueRequired(flag.value))
      else
        var setting := Setting(flag.value, arguments[1].value);
        if !setting.Valid() then Err(if flag.value == RunId then RunIdTooLong else ValueRequired(flag.value))
        else
          var rest := Settings(arguments[2..], seen + {flag.value});
          if rest.Ok? then Ok([setting] + rest.value) else rest
  }

  /** The arguments that spell out the settings. */
  function Spelled(settings: seq<Setting>): seq<Option<string>> {
    if settings == [] then []
    else [Some(FlagText(settings[0].flag)), Some(settings[0].value)] + Spelled(settings[1..])
  }

  function Flags(settings: seq<Setting>): set<Flag> {
    if settings == [] then {} else {settings[0].flag} + Flags(settings[1..])
  }

  predicate NoFlagTwice(settings: seq<Setting>, seen: set<Flag>) {
    settings == [] || (settings[0].flag !in seen && NoFlagTwice(settings[1..], seen + {settings[0].flag}))
  }

  predicate AllValid(settings: seq<Setting>) {
    forall k | 0 <= k < |settings| :: settings[k].Valid()
  }

  lemma SettingIsTaken(setting: Setting, more: seq<Option<string>>, seen: set<Flag>)
    requires setting.Valid() && setting.flag !in seen
    ensures var rest := Settings(more, seen + {setting.flag});
      Settings([Some(FlagText(setting.flag)), Some(setting.value)] + more, seen)
      == if rest.Ok? then Ok([setting] + rest.value) else rest
  {
    FlagIsKnown(setting.flag);
    assert ([Some(FlagText(setting.flag)), Some(setting.value)] + more)[2..] == more;
  }

  /** Every list of valid settings that names no flag twice is read back from the arguments that spell it. */
  lemma {:induction false} SpelledIsRead(settings: seq<Setting>, seen: set<Flag>)
    requires AllValid(settings) && NoFlagTwice(settings, seen)
    ensures Settings(Spelled(settings), seen) == Ok(settings)
  {
    if settings != [] {
      SpelledIsRead(settings[1..], seen + {settings[0].flag});
      SettingIsTaken(settings[0], Spelled(settings[1..]), seen);
      assert settings == [settings[0]] + settings[1..];
    }
  }

  /** Nothing else is accepted. */
  lemma {:induction false} ReadIsSpelled(arguments: seq<Option<string>>, seen: set<Flag>)
    requires Settings(arguments, seen).Ok?
    ensures var settings := Settings(arguments, seen).value;
      AllValid(settings) && NoFlagTwice(settings, seen) && Spelled(settings) == arguments
  {
    if arguments != [] {
      var settings, rest := Settings(arguments, seen).value, arguments[2..];
      ReadIsSpelled(rest, seen + {settings[0].flag});
      assert settings[1..] == Settings(rest, seen + {settings[0].flag}).value;
      assert arguments == [arguments[0], arguments[1]] + rest;
    }
  }

  /** The flag stands at `i`. */
  predicate FlagAt(arguments: seq<Option<string>>, flag: Flag, i: nat) {
    i < |arguments| && arguments[i] == Some(FlagText(flag))
  }

  /** A complaint about the settings tells the truth about the arguments. */
  ghost predicate IsTrueOf(error: ParseError, arguments: seq<Option<string>>, seen: set<Flag>) {
    match error
    case NullArgument => None in arguments
    case UnknownArgument(text) => Some(text) in arguments && FlagOf(text).None?
    case Repeated(flag) =>
      || (flag in seen && exists i: nat :: FlagAt(arguments, flag, i))
      || exists i: nat, j: nat :: i < j && FlagAt(arguments, flag, i) && FlagAt(arguments, flag, j)
    case ValueRequired(flag) =>
      exists i: nat :: FlagAt(arguments, flag, i)
        && (HasValue(arguments[i..]) ==> !ValueFits(flag, arguments[i + 1].value))
    case RunIdTooLong =>
      exists i: nat :: FlagAt(arguments, RunId, i) && i + 1 < |arguments| && arguments[i + 1].Some?
        && |arguments[i + 1].value| > MAXIMUM_RUN_ID_BYTES
    case _ => false
  }

  lemma TruthShifts(error: ParseError, arguments: seq<Option<string>>, seen: set<Flag>, flag: Flag)
    requires |arguments| >= 2 && FlagAt(arguments, flag, 0) && IsTrueOf(error, arguments[2..], seen + {flag})
    ensures IsTrueOf(error, arguments, seen)
  {
    var rest := arguments[2..];
    assert forall f: Flag, i: nat | FlagAt(rest, f, i) :: FlagAt(arguments, f, i + 2);
    assert forall i: nat | i < |rest| :: rest[i..] == arguments[i + 2..];
    match error
    case Repeated(f) =>
      if i: nat, j: nat :| i < j && FlagAt(rest, f, i) && FlagAt(rest, f, j) {
        assert FlagAt(arguments, f, i + 2) && FlagAt(arguments, f, j + 2);
      }
    case ValueRequired(f) =>
      var i: nat :| FlagAt(rest, f, i) && (HasValue(rest[i..]) ==> !ValueFits(f, rest[i + 1].value));
      assert FlagAt(arguments, f, i + 2);
    case RunIdTooLong =>
      var i: nat :| FlagAt(rest, RunId, i) && i + 1 < |rest| && rest[i + 1].Some?
                    && |rest[i + 1].value| > MAXIMUM_RUN_ID_BYTES;
      assert FlagAt(arguments, RunId, i + 2);
    case _ =>
  }

  /** Every refusal of the settings is for a reason that can be found in the arguments. */
  lemma {:induction false} SettingsErrorIsTrue(arguments: seq<Option<string>>, seen: set<Flag>)
    requires Settings(arguments, seen).Err?
    ensures IsTrueOf(Settings(arguments, seen).error, arguments, seen)
  {
    if arguments[0].Some? && FlagOf(arguments[0].value).Some? {
      var flag := FlagOf(arguments[0].value).value;
      assert FlagAt(arguments, flag, 0) && arguments[0..] == arguments;
      if flag !in seen && HasValue(arguments) && Setting(flag, arguments[1].value).Valid() {
        SettingsErrorIsTrue(arguments[2..], seen + {flag});
        TruthShifts(Settings(arguments, seen).error, arguments, seen, flag);
      }
    }
  }

  lemma {:induction false} SpellingIsUnique(a: seq<Setting>, b: seq<Setting>)
    requires Spelled(a) == Spelled(b)
    ensures a == b
  {
    if a != [] && b != [] {
      FlagTextsDiffer();
      assert Spelled(a)[0] == Spelled(b)[0] && Spelled(a)[1] == Spelled(b)[1];
      assert Spelled(a)[2..] == Spelled(a[1..]) && Spelled(b)[2..] == Spelled(b[1..]);
      SpellingIsUnique(a[1..], b[1..]);
      assert a == [a[0]] + a[1..] && b == [b[0]] + b[1..];
    }
  }

  /** A spelling is accepted exactly when every setting is valid and no flag comes twice. */
  lemma SpelledIsReadIffValid(settings: seq<Setting>)
    ensures Settings(Spelled(settings), {}).Ok? <==> AllValid(settings) && NoFlagTwice(settings, {})
    ensures Settings(Spelled(settings), {}).Ok? ==> Settings(Spelled(settings), {}).value == settings
  {
    if AllValid(settings) && NoFlagTwice(settings, {}) {
      SpelledIsRead(settings, {});
    }
    if Settings(Spelled(settings), {}).Ok? {
      ReadIsSpelled(Spelled(settings), {});
      SpellingIsUnique(Settings(Spelled(settings), {}).value, settings);
    }
  }

  // ---------- Options ----------

  function HandleOf(text: string): uint64 {
    if ParsePositiveHandle(text).Some? then ParsePositiveHandle(text).value else 0
  }

  function Applied(options: Options, setting: Setting): Options {
    match setting.flag
    case Config => options.(configPath := setting.value)
    case RunId => options.(runId := setting.value)
    case CommandPipeHandle => options.(commandPipeHandle := HandleOf(setting.value))
    case EventPipeHandle => options.(eventPipeHandle := HandleOf(setting.value))
  }

  function AllApplied(options: Options, settings: seq<Setting>): Options
    decreases settings
  {
    if settings == [] then options else AllApplied(Applied(options, settings[0]), settings[1..])
  }

  function Defaults(mode: Mode): Options {
    Options(mode, [], [], 0, 0)
  }

  const CHILD_FLAGS := {RunId, CommandPipeHandle, EventPipeHandle}

  /** What is wrong with the set of flags given for a mode. */
  function Complaint(mode: Mode, flags: set<Flag>): Option<ParseError> {
    if mode == ServerChild then
      if CHILD_FLAGS <= flags then None else Some(ServerChildIncomplete)
    else if CHILD_FLAGS * flags != {} then Some(ServerChildOnly)
    else if mode == WorldHostLifecycle && Config !in flags then Some(ConfigRequired)
    else None
  }

  function ModeOf(text: string): (mode: Option<Mode>)
    ensures mode.Some? ==> ModeText(mode.value) == text
    ensures mode.None? ==> forall m: Mode :: ModeText(m) != text
  {
    if text == ModeText(Run) then Some(Run)
    else if text == ModeText(Serve) then Some(Serve)
    else if text == ModeText(WorldHostLifecycle) then Some(WorldHostLifecycle)
    else if text == ModeText(ServerChild) then Some(ServerChild)
    else None
  }

  lemma ModeTextsDiffer()
    ensures forall m: Mode, n: Mode :: ModeText(m) == ModeText(n) ==> m == n
  {
    assert |ModeText(Run)| == 3 && |ModeText(Serve)| == 5;
    assert |ModeText(WorldHostLifecycle)| == 20 && |ModeText(ServerChild)| == 14;
  }

  /** The result of Parse: the program's own name, whatever it is, comes first. */
  function Parsed(arguments: seq<Option<string>>): Result<Options, ParseError> {
    if |arguments| < 2 || arguments[1].None? then Err(ModeRequired)
    else if ModeOf(arguments[1].value).None? then Err(UnknownMode(arguments[1].value))
    else
      var mode, settings := ModeOf(arguments[1].value).value, Settings(arguments[2..], {});
      if settings.Err? then Err(settings.error)
      else if Complaint(mode, Flags(settings.value)).Some? then Err(Complaint(mode, Flags(settings.value)).value)
      else Ok(AllApplied(Defaults(mode), settings.value))
  }

  /** The argument vector says `mode` and then spells out `settings`, in some order, no flag twice. */
  ghost predicate Says(arguments: seq<Option<string>>, mode: Mode, settings: seq<Setting>) {
    && |arguments| >= 2 && arguments[1] == Some(ModeText(mode)) && arguments[2..] == Spelled(settings)
    && AllValid(settings) && NoFlagTwice(settings, {}) && Complaint(mode, Flags(settings)).None?
  }

  /** Parse accepts exactly the vectors that say a mode and settings it allows, and returns those. */
  lemma AcceptsExactlyWhatIsSaid(arguments: seq<Option<string>>, options: Options)
    ensures Parsed(arguments) == Ok(options) <==>
      exists mode, settings :: Says(arguments, mode, settings) && options == AllApplied(Defaults(mode), settings)
  {
    if Parsed(arguments) == Ok(options) {
      var settings := Settings(arguments[2..], {}).value;
      ReadIsSpelled(arguments[2..], {});
      assert Says(arguments, ModeOf(arguments[1].value).value, settings);
    }
    forall mode, settings | Says(arguments, mode, settings)
      ensures Parsed(arguments) == Ok(AllApplied(Defaults(mode), settings))
    {
      ModeTextsDiffer();
      SpelledIsRead(settings, {});
    }
  }

  // ---------- Parse ----------

  lemma {:induction false} FlagsAppend(settings: seq<Setting>, setting: Setting)
    ensures Flags(settings + [setting]) == Flags(settings) + {setting.flag}
  {
    if settings == [] {
      assert [] + [setting] == [setting];
    } else {
      FlagsAppend(settings[1..], setting);
      assert (settings + [setting])[1..] == settings[1..] + [setting];
    }
  }

  lemma {:induction false} NoFlagTwiceAppend(settings: seq<Setting>, setting: Setting, seen: set<Flag>)
    ensures NoFlagTwice(settings + [setting], seen)
       <==> NoFlagTwice(settings, seen) && setting.flag !in seen + Flags(settings)
  {
    if settings == [] {
      assert [] + [setting] == [setting];
    } else {
      NoFlagTwiceAppend(settings[1..], setting, seen + {settings[0].flag});
      assert (settings + [setting])[1..] == settings[1..] + [setting];
    }
  }

  lemma {:induction false} AppliedAppend(options: Options, settings: seq<Setting>, setting: Setting)
    ensures AllApplied(options, settings + [setting]) == Applied(AllApplied(options, settings), setting)
    decreases settings
  {
    if settings == [] {
      assert [] + [setting] == [setting];
    } else {
      AppliedAppend(Applied(options, settings[0]), settings[1..], setting);
      assert (settings + [setting])[1..] == settings[1..] + [setting];
    }
  }

  /** What is still to be read continues what has been read. */
  ghost predicate Continues(whole: Result<seq<Setting>, ParseError>, done: seq<Setting>,
                            rest: Result<seq<Setting>, ParseError>) {
    whole == if rest.Ok? then Ok(done + rest.value) else rest
  }

  lemma NothingRead(whole: Result<seq<Setting>, ParseError>)
    ensures Continues(whole, [], whole)
  {
    assert whole.Ok? ==> [] + whole.value == whole.value;
  }

  lemma SettingIsRead(arguments: seq<Option<string>>, i: nat, done: seq<Setting>, setting: Setting)
    requires i + 1 < |arguments| && arguments[i..][0].Some? && FlagOf(arguments[i].value) == Some(setting.flag)
    requires setting.flag !in Flags(done) && HasValue(arguments[i..]) && arguments[i + 1] == Some(setting.value)
    requires setting.Valid()
    ensures forall whole :: Continues(whole, done, Settings(arguments[i..], Flags(done))) ==>
      Continues(whole, done + [setting], Settings(arguments[i + 2..], Flags(done + [setting])))
  {
    FlagsAppend(done, setting);
    assert arguments[i..][2..] == arguments[i + 2..];
    var rest := Settings(arguments[i + 2..], Flags(done + [setting]));
    if rest.Ok? {
      assert done + ([setting] + rest.value) == done + [setting] + rest.value;
    }
  }

  /** Walks the arguments by index, setting option fields and seen-flags. */
  method Parse(arguments: seq<Option<string>>) returns (result: Result<Options, ParseError>)
    ensures result == Parsed(arguments)
  {
    if |arguments| < 2 || arguments[1].None? {
      return Err(ModeRequired);
    }
    var modeArgument := ModeOf(arguments[1].value);
    if modeArgument.None? {
      return Err(UnknownMode(arguments[1].value));
    }
    var options := Defaults(modeArgument.value);
    var hasConfigPath, hasRunId, hasCommandPipeHandle, hasEventPipeHandle := false, false, false, false;
    ghost var settings: seq<Setting> := [];
    var argumentIndex := 2;
    NothingRead(Settings(arguments[2..], {}));
    while argumentIndex < |arguments|
      invariant 2 <= argumentIndex <= |arguments|
      invariant Continues(Settings(arguments[2..], {}), settings,
                          Settings(arguments[argumentIndex..], Flags(settings)))
      invariant options == AllApplied(Defaults(modeArgument.value), settings)
      invariant hasConfigPath <==> Config in Flags(settings)
      invariant hasRunId <==> RunId in Flags(settings)
      invariant hasCommandPipeHandle <==> CommandPipeHandle in Flags(settings)
      invariant hasEventPipeHandle <==> EventPipeHandle in Flags(settings)
    {
      if arguments[argumentIndex].None? {
        return Err(NullArgument);
      }
      var flag := FlagOf(arguments[argumentIndex].value);
      if flag.None? {
        return Err(UnknownArgument(arguments[argumentIndex].value));
      }
      var seen := match flag.value
        case Config => hasConfigPath
        case RunId => hasRunId
        case CommandPipeHandle => hasCommandPipeHandle
        case EventPipeHandle => hasEventPipeHandle;
      if seen {
        return Err(Repeated(flag.value));
      }
      if !HasValue(arguments[argumentIndex..]) {
        return Err(ValueRequired(flag.value));
      }
      var value := arguments[argumentIndex + 1].value;
      match flag.value {
        case Config =>
          options := options.(configPath := value);
          hasConfigPath := true;
        case RunId =>
          if |value| > MAXIMUM_RUN_ID_BYTES {
            return Err(RunIdTooLong);
          }
          options := options.(runId := value);
          hasRunId := true;
        case CommandPipeHandle =>
          var handle := ParsePositiveHandle(value);
          if handle.None? {
            return Err(ValueRequired(CommandPipeHandle));
          }
          options := options.(commandPipeHandle := handle.value);
          hasCommandPipeHandle := true;
        case EventPipeHandle =>
          var handle := ParsePositiveHandle(value);
          if handle.None? {
            return Err(ValueRequired(EventPipeHandle));
          }
          options := options.(eventPipeHandle := handle.value);
          hasEventPipeHandle := true;
      }
      ghost var setting := Setting(flag.value, value);
      SettingIsRead(arguments, argumentIndex, settings, setting);
      AppliedAppend(Defaults(modeArgument.value), settings, setting);
      FlagsAppend(settings, setting);
      settings := settings + [setting];
      argumentIndex := argumentIndex + 2;
    }
    assert settings + [] == settings;
    if modeArgument.value == ServerChild {
      if !hasRunId || !hasCommandPipeHandle || !hasEventPipeHandle {
        return Err(ServerChildIncomplete);
      }
    } else if hasRunId || hasCommandPipeHandle || hasEventPipeHandle {
      assert CHILD_FLAGS * Flags(settings) != {};
      return Err(ServerChildOnly);
    }
    if modeArgument.value == WorldHostLifecycle && !hasConfigPath {
      return Err(ConfigRequired);
    }
    return Ok(options);
  }
}
