/** Which options the command line can ask for, and the words that ask for them, without the parser's own steps. */
module OptionRules {
  import opened CommandLine
  import opened Decimals
  import opened Prelude

  // ---------- Settings and fields ----------

  /** The options hold what the setting says. */
  predicate Holds(o: Options, setting: Setting)
    requires setting.Valid()
  {
    match setting.flag
    case Config => o.configPath == setting.value
    case RunId => o.runId == setting.value
    case CommandPipeHandle => o.commandPipeHandle == DecimalValue(setting.value)
    case EventPipeHandle => o.eventPipeHandle == DecimalValue(setting.value)
  }

  lemma {:induction false} OthersStay(o: Options, settings: seq<Setting>, seen: set<Flag>, setting: Setting)
    requires setting.Valid() && Holds(o, setting) && setting.flag in seen && NoFlagTwice(settings, seen)
    ensures Holds(AllApplied(o, settings), setting)
    decreases |settings|
  {
    if settings != [] {
      OthersStay(Applied(o, settings[0]), settings[1..], seen + {settings[0].flag}, setting);
    }
  }

  /** Each setting of an accepted command line reaches its own field, whatever comes before and after it. */
  lemma {:induction false} SettingArrives(o: Options, settings: seq<Setting>, seen: set<Flag>, k: nat)
    requires k < |settings| && AllValid(settings) && NoFlagTwice(settings, seen)
    ensures settings[k].Valid() && Holds(AllApplied(o, settings), settings[k])
    decreases k
  {
    var first, rest := settings[0], settings[1..];
    assert forall i | 0 <= i < |rest| :: rest[i] == settings[i + 1];
    assert first.Valid();
    if k == 0 {
      OthersStay(Applied(o, first), rest, seen + {first.flag}, first);
    } else {
      assert rest[k - 1] == settings[k];
      SettingArrives(Applied(o, first), rest, seen + {first.flag}, k - 1);
    }
  }

  /** A field is a value of its kind if its flag is given, and as it was if not. */
  lemma {:induction false} FlagsDecide(o: Options, settings: seq<Setting>)
    requires AllValid(settings)
    ensures var r, flags := AllApplied(o, settings), Flags(settings);
      && r.mode == o.mode
      && (if Config in flags then IsValue(r.configPath) else r.configPath == o.configPath)
      && (if RunId in flags then IsValue(r.runId) && |r.runId| <= 128 else r.runId == o.runId)
      && (if CommandPipeHandle in flags then r.commandPipeHandle > 0 else r.commandPipeHandle == o.commandPipeHandle)
      && (if EventPipeHandle in flags then r.eventPipeHandle > 0 else r.eventPipeHandle == o.eventPipeHandle)
    decreases |settings|
  {
    if settings != [] {
      assert settings[0].Valid();
      assert forall i | 0 <= i < |settings[1..]| :: settings[1..][i] == settings[i + 1];
      FlagsDecide(Applied(o, settings[0]), settings[1..]);
    }
  }

  // ---------- What can be asked for ----------

  /** A text that is there and does not look like a flag. */
  predicate IsText(text: string) {
    text != "" && !("--" <= text)
  }

  /**
   A child has a run id of at most 128 bytes and both handles; the other modes have none of these; the world host has a
   configuration.
   */
  predicate Sensible(o: Options) {
    && (o.configPath == "" || IsText(o.configPath))
    && (o.mode == ServerChild ==>
          IsText(o.runId) && |o.runId| <= 128 && o.commandPipeHandle > 0 && o.eventPipeHandle > 0)
    && (o.mode != ServerChild ==> o.runId == "" && o.commandPipeHandle == 0 && o.eventPipeHandle == 0)
    && (o.mode == WorldHostLifecycle ==> o.configPath != "")
  }

  lemma TextIsValue(text: string)
    ensures IsText(text) <==> IsValue(text)
  {
    if |text| >= 2 {
      assert "--"[0] == '-' && "--"[1] == '-';
      assert "--" <= text <==> text[0] == '-' && text[1] == '-';
    }
  }

  lemma NoneOfTheChilds(flags: set<Flag>)
    ensures CHILD_FLAGS * flags == {} <==> RunId !in flags && CommandPipeHandle !in flags && EventPipeHandle !in flags
  {
    if RunId in flags || CommandPipeHandle in flags || EventPipeHandle in flags {
      var flag :=
        if RunId in flags then RunId else if EventPipeHandle in flags then EventPipeHandle else CommandPipeHandle;
      assert flag in CHILD_FLAGS * flags;
    }
  }

  lemma ReturnedIsSensible(arguments: seq<Option<string>>, o: Options)
    requires Parsed(arguments) == Ok(o)
    ensures Sensible(o)
  {
    AcceptsExactlyWhatIsSaid(arguments, o);
    var mode, settings :| Says(arguments, mode, settings) && o == AllApplied(Defaults(mode), settings);
    FlagsDecide(Defaults(mode), settings);
    TextIsValue(o.configPath);
    TextIsValue(o.runId);
    NoneOfTheChilds(Flags(settings));
  }

  /** The settings that ask for the options. */
  function Asking(o: Options): seq<Setting> {
    (if o.configPath == "" then [] else [Setting(Config, o.configPath)])
    + (if o.mode != ServerChild then []
       else [Setting(RunId, o.runId), Setting(CommandPipeHandle, Decimal(o.commandPipeHandle)),
             Setting(EventPipeHandle, Decimal(o.eventPipeHandle))])
  }

  /** What one setting more does to a list of valid ones. */
  lemma OneMore(o: Options, settings: seq<Setting>, setting: Setting)
    requires AllValid(settings) && NoFlagTwice(settings, {}) && setting.Valid() && setting.flag !in Flags(settings)
    ensures AllValid(settings + [setting]) && NoFlagTwice(settings + [setting], {})
    ensures Flags(settings + [setting]) == Flags(settings) + {setting.flag}
    ensures AllApplied(o, settings + [setting]) == Applied(AllApplied(o, settings), setting)
  {
    NoFlagTwiceAppend(settings, setting, {});
    FlagsAppend(settings, setting);
    AppliedAppend(o, settings, setting);
  }

  lemma HandleIsRead(handle: uint64)
    requires handle > 0
    ensures ParsePositiveHandle(Decimal(handle)) == Some(handle) && IsValue(Decimal(handle))
  {
    DecimalIsReadBack(handle);
    assert IsDigit(Decimal(handle)[0]);
  }

  lemma ConfigAsks(o: Options)
    requires Sensible(o)
    ensures var settings := if o.configPath == "" then [] else [Setting(Config, o.configPath)];
      && AllValid(settings) && NoFlagTwice(settings, {})
      && Flags(settings) == (if o.configPath == "" then {} else {Config})
      && AllApplied(Defaults(o.mode), settings) == Defaults(o.mode).(configPath := o.configPath)
  {
    TextIsValue(o.configPath);
    if o.configPath != "" {
      OneMore(Defaults(o.mode), [], Setting(Config, o.configPath));
      assert [] + [Setting(Config, o.configPath)] == [Setting(Config, o.configPath)];
    }
  }

  lemma ChildAsks(o: Options, settings: seq<Setting>, run: Setting, command: Setting, event: Setting)
    requires AllValid(settings) && NoFlagTwice(settings, {}) && Flags(settings) <= {Config}
    requires run.Valid() && command.Valid() && event.Valid()
    requires run.flag == RunId && command.flag == CommandPipeHandle && event.flag == EventPipeHandle
    ensures var all := settings + [run] + [command] + [event];
      && AllValid(all) && NoFlagTwice(all, {}) && CHILD_FLAGS <= Flags(all)
      && AllApplied(o, all) == Applied(Applied(Applied(AllApplied(o, settings), run), command), event)
  {
    OneMore(o, settings, run);
    OneMore(o, settings + [run], command);
    OneMore(o, settings + [run] + [command], event);
  }

  lemma ChildOptions(o: Options, settings: seq<Setting>, run: Setting, command: Setting, event: Setting)
    requires Sensible(o) && o.mode == ServerChild
    requires AllValid(settings) && NoFlagTwice(settings, {}) && Flags(settings) <= {Config}
    requires AllApplied(Defaults(o.mode), settings) == Defaults(o.mode).(configPath := o.configPath)
    requires run == Setting(RunId, o.runId) && command == Setting(CommandPipeHandle, Decimal(o.commandPipeHandle))
    requires event == Setting(EventPipeHandle, Decimal(o.eventPipeHandle))
    ensures var all := settings + [run] + [command] + [event];
      && AllValid(all) && NoFlagTwice(all, {}) && CHILD_FLAGS <= Flags(all)
      && AllApplied(Defaults(o.mode), all) == o
  {
    TextIsValue(o.runId);
    HandleIsRead(o.commandPipeHandle);
    HandleIsRead(o.eventPipeHandle);
    ChildAsks(Defaults(o.mode), settings, run, command, event);
  }

  lemma AskingAsks(o: Options)
    requires Sensible(o)
    ensures AllValid(Asking(o)) && NoFlagTwice(Asking(o), {}) && Complaint(o.mode, Flags(Asking(o))).None?
    ensures AllApplied(Defaults(o.mode), Asking(o)) == o
  {
    var settings := if o.configPath == "" then [] else [Setting(Config, o.configPath)];
    ConfigAsks(o);
    if o.mode == ServerChild {
      var run, command, event := Setting(RunId, o.runId),
        Setting(CommandPipeHandle, Decimal(o.commandPipeHandle)), Setting(EventPipeHandle, Decimal(o.eventPipeHandle));
      ChildOptions(o, settings, run, command, event);
      assert settings + [run] + [command] + [event] == Asking(o);
    } else {
      assert settings == Asking(o);
      NoneOfTheChilds(Flags(settings));
    }
  }

  lemma AskedIsReturned(program: Option<string>, o: Options)
    requires Sensible(o)
    ensures Parsed([program, Some(ModeText(o.mode))] + Spelled(Asking(o))) == Ok(o)
  {
    AskingAsks(o);
    var arguments := [program, Some(ModeText(o.mode))] + Spelled(Asking(o));
    assert arguments[2..] == Spelled(Asking(o));
    assert Says(arguments, o.mode, Asking(o));
    AcceptsExactlyWhatIsSaid(arguments, o);
  }

  /** Some command line asks for the options exactly when they are sensible. */
  lemma OptionsAreSensibleIff(o: Options)
    ensures (exists arguments :: Parsed(arguments) == Ok(o)) <==> Sensible(o)
  {
    if Sensible(o) {
      AskedIsReturned(None, o);
    }
    forall arguments | Parsed(arguments) == Ok(o)
      ensures Sensible(o)
    {
      ReturnedIsSensible(arguments, o);
    }
  }

  // ---------- What the complaints about a mode say ----------

  /** A flag is given exactly when its word stands among the arguments: no value looks like one. */
  lemma {:induction false} FlagsAreWords(settings: seq<Setting>, flag: Flag)
    requires AllValid(settings)
    ensures flag in Flags(settings) <==> Some(FlagText(flag)) in Spelled(settings)
    decreases |settings|
  {
    if settings != [] {
      var first, rest := settings[0], settings[1..];
      assert first.Valid() && StartsWithDashes(FlagText(flag));
      assert forall i | 0 <= i < |rest| :: rest[i] == settings[i + 1];
      FlagsAreWords(rest, flag);
      FlagTextsDiffer();
      assert Spelled(settings) == [Some(FlagText(first.flag)), Some(first.value)] + Spelled(rest);
    }
  }

  predicate Given(arguments: seq<Option<string>>, word: string) {
    Some(word) in arguments
  }

  /** Each complaint about a mode's flags tells the truth: which word is missing, or which is out of place. */
  lemma ModeErrorIsTrue(arguments: seq<Option<string>>)
    requires Parsed(arguments).Err? && |arguments| >= 2
    ensures var words, error := arguments[2..], Parsed(arguments).error;
      var child := arguments[1] == Some("--server-child");
      && (error == ServerChildIncomplete ==>
            child && !(Given(words, "--run-id") && Given(words, "--command-pipe-handle")
                       && Given(words, "--event-pipe-handle")))
      && (error == ServerChildOnly ==>
            !child && (Given(words, "--run-id") || Given(words, "--command-pipe-handle")
                       || Given(words, "--event-pipe-handle")))
      && (error == ConfigRequired ==>
            arguments[1] == Some("world-host-lifecycle") && !Given(words, "--config"))
  {
    var words := arguments[2..];
    if Settings(words, {}).Ok? {
      FlagsGiven(words);
      NoneOfTheChilds(Flags(Settings(words, {}).value));
    } else {
      SettingsErrorIsTrue(words, {});
    }
  }

  lemma FlagsGiven(words: seq<Option<string>>)
    requires Settings(words, {}).Ok?
    ensures var flags := Flags(Settings(words, {}).value);
      && (Config in flags <==> Given(words, "--config")) && (RunId in flags <==> Given(words, "--run-id"))
      && (CommandPipeHandle in flags <==> Given(words, "--command-pipe-handle"))
      && (EventPipeHandle in flags <==> Given(words, "--event-pipe-handle"))
  {
    ReadIsSpelled(words, {});
    var settings := Settings(words, {}).value;
    FlagsAreWords(settings, Config);
    FlagsAreWords(settings, RunId);
    FlagsAreWords(settings, CommandPipeHandle);
    FlagsAreWords(settings, EventPipeHandle);
  }

  // ---------- The words ----------

  lemma SpelledAppend(settings: seq<Setting>, setting: Setting)
    ensures Spelled([setting] + settings) == [Some(FlagText(setting.flag)), Some(setting.value)] + Spelled(settings)
  {
    assert ([setting] + settings)[1..] == settings;
  }

  /** The words for the modes a user gives, with a configuration. */
  lemma ModeWords(program: Option<string>, path: string)
    requires IsText(path)
    ensures Parsed([program, Some("run"), Some("--config"), Some(path)]) == Ok(Options(Run, path, "", 0, 0))
    ensures Parsed([program, Some("serve"), Some("--config"), Some(path)]) == Ok(Options(Serve, path, "", 0, 0))
    ensures Parsed([program, Some("world-host-lifecycle"), Some("--config"), Some(path)])
         == Ok(Options(WorldHostLifecycle, path, "", 0, 0))
  {
    WordsAsk(program, Run, "run", path);
    WordsAsk(program, Serve, "serve", path);
    WordsAsk(program, WorldHostLifecycle, "world-host-lifecycle", path);
  }

  lemma WordsAsk(program: Option<string>, mode: Mode, word: string, path: string)
    requires IsText(path) && mode != ServerChild && word == ModeText(mode)
    ensures Parsed([program, Some(word), Some("--config"), Some(path)]) == Ok(Options(mode, path, "", 0, 0))
  {
    var o := Options(mode, path, "", 0, 0);
    AskedIsReturned(program, o);
    var setting := Setting(Config, path);
    SpelledAppend([], setting);
    assert [setting] + [] == Asking(o);
    assert [program, Some(word)] + Spelled(Asking(o)) == [program, Some(word), Some("--config"), Some(path)];
  }

  /** The words of a child's command line. */
  lemma ChildWords(program: Option<string>, runId: string, command: uint64, event: uint64)
    requires IsText(runId) && |runId| <= 128 && command > 0 && event > 0
    ensures Parsed([program, Some("--server-child"), Some("--run-id"), Some(runId),
                    Some("--command-pipe-handle"), Some(Decimal(command)),
                    Some("--event-pipe-handle"), Some(Decimal(event))])
         == Ok(Options(ServerChild, "", runId, command, event))
  {
    var o := Options(ServerChild, "", runId, command, event);
    AskedIsReturned(program, o);
    var a, b, c := Setting(RunId, runId), Setting(CommandPipeHandle, Decimal(command)),
                   Setting(EventPipeHandle, Decimal(event));
    SpelledAppend([], c);
    SpelledAppend([c], b);
    SpelledAppend([b, c], a);
    assert [c] + [] == [c] && [b] + [c] == [b, c] && [a] + [b, c] == Asking(o);
    assert Spelled(Asking(o)) == [Some("--run-id"), Some(runId)]
      + ([Some("--command-pipe-handle"), Some(Decimal(command))] + [Some("--event-pipe-handle"), Some(Decimal(event))]);
    assert [program, Some("--server-child")] + Spelled(Asking(o))
        == [program, Some("--server-child"), Some("--run-id"), Some(runId),
            Some("--command-pipe-handle"), Some(Decimal(command)),
            Some("--event-pipe-handle"), Some(Decimal(event))];
  }
}
