/** Launching the server child: what the parent writes on the command line, the child's Parse reads back. */
module ChildLaunch {
  import opened CommandLine
  import opened Decimals
  import opened Prelude
  import opened Quoting

  /** What the parent means to pass on. */
  datatype Launch = Launch(
    executablePath: string, runId: string, configPath: string, commandReadHandle: uint64, eventWriteHandle: uint64)

  /** The settings the parent writes, one more at each step. */
  function WithRunId(launch: Launch): seq<Setting> {
    [] + [Setting(RunId, launch.runId)]
  }

  function WithCommandPipe(launch: Launch): seq<Setting> {
    WithRunId(launch) + [Setting(CommandPipeHandle, Decimal(launch.commandReadHandle))]
  }

  function WithEventPipe(launch: Launch): seq<Setting> {
    WithCommandPipe(launch) + [Setting(EventPipeHandle, Decimal(launch.eventWriteHandle))]
  }

  function SettingsOf(launch: Launch): seq<Setting> {
    if launch.configPath == [] then WithEventPipe(launch)
    else WithEventPipe(launch) + [Setting(Config, launch.configPath)]
  }

  // ---------- The command line ----------

  /** Paths and names are quoted, numbers are written as they stand. */
  function ValueToken(setting: Setting): Token {
    if setting.flag == Config || setting.flag == RunId then Quote(setting.value) else Plain(setting.value)
  }

  function TokensOf(settings: seq<Setting>): seq<Token> {
    if settings == [] then []
    else [Plain(FlagText(settings[0].flag)), ValueToken(settings[0])] + TokensOf(settings[1..])
  }

  function ChildTokens(settings: seq<Setting>): seq<Token> {
    [Plain("--server-child")] + TokensOf(settings)
  }

  function ChildCommandLine(path: string, settings: seq<Setting>): string {
    Quoted(path) + Render(ChildTokens(settings))
  }

  lemma RenderFirst(token: Token, rest: seq<Token>)
    ensures Render([token] + rest) == [' '] + token.Rendered() + Render(rest)
  {
    assert ([token] + rest)[1..] == rest;
  }

  lemma {:induction false} RenderAppends(tokens: seq<Token>, token: Token)
    ensures Render(tokens + [token]) == Render(tokens) + [' '] + token.Rendered()
  {
    if tokens == [] {
      RenderFirst(token, []);
      assert [] + [token] == [token] + [];
    } else {
      RenderAppends(tokens[1..], token);
      RenderFirst(tokens[0], tokens[1..] + [token]);
      assert tokens + [token] == [tokens[0]] + (tokens[1..] + [token]);
    }
  }

  lemma {:induction false} TokensAppend(settings: seq<Setting>, setting: Setting)
    ensures TokensOf(settings + [setting])
         == TokensOf(settings) + [Plain(FlagText(setting.flag))] + [ValueToken(setting)]
  {
    if settings == [] {
      assert [] + [setting] == [setting];
    } else {
      TokensAppend(settings[1..], setting);
      assert (settings + [setting])[1..] == settings[1..] + [setting];
    }
  }

  lemma TwoTokensAppend(tokens: seq<Token>, flag: Token, value: Token)
    requires flag.Plain?
    ensures Render(tokens + [flag] + [value]) == Render(tokens) + [' '] + flag.text + [' '] + value.Rendered()
  {
    RenderAppends(tokens, flag);
    RenderAppends(tokens + [flag], value);
  }

  lemma Regroup(a: string, b: string, flag: string, value: string)
    ensures a + b + ([' '] + flag + [' ']) + value == a + (b + [' '] + flag + [' '] + value)
  {
  }

  /** A command line grown by one option. */
  lemma OptionIsWritten(path: string, settings: seq<Setting>, setting: Setting, spaced: string)
    requires spaced == [' '] + FlagText(setting.flag) + [' ']
    ensures ChildCommandLine(path, settings) + spaced + ValueToken(setting).Rendered()
         == ChildCommandLine(path, settings + [setting])
  {
    var text, before := FlagText(setting.flag), ChildTokens(settings);
    TokensAppend(settings, setting);
    assert ChildTokens(settings + [setting]) == before + [Plain(text)] + [ValueToken(setting)];
    TwoTokensAppend(before, Plain(text), ValueToken(setting));
    Regroup(Quoted(path), Render(before), text, ValueToken(setting).Rendered());
  }

  lemma ModeIsWritten(path: string)
    ensures Quoted(path) + " --server-child --run-id " == ChildCommandLine(path, []) + " --run-id "
  {
    RenderAppends([], Plain("--server-child"));
    assert [] + [Plain("--server-child")] == ChildTokens([]);
    assert " --server-child --run-id " == [' '] + "--server-child" + " --run-id ";
  }

  /** The blanks around the flags in the literals of the source. */
  lemma Spacing()
    ensures " --run-id " == [' '] + FlagText(RunId) + [' ']
    ensures " --command-pipe-handle " == [' '] + FlagText(CommandPipeHandle) + [' ']
    ensures " --event-pipe-handle " == [' '] + FlagText(EventPipeHandle) + [' ']
    ensures " --config " == [' '] + FlagText(Config) + [' ']
  {
  }

  method BuildBenchmarkChildCommandLine(launch: Launch) returns (commandLine: string)
    ensures commandLine == ChildCommandLine(launch.executablePath, SettingsOf(launch))
  {
    Spacing();
    ghost var path := launch.executablePath;
    commandLine := AppendQuotedArgument(launch.executablePath, []);
    assert commandLine == Quoted(path);
    ModeIsWritten(path);
    commandLine := commandLine + " --server-child --run-id ";
    OptionIsWritten(path, [], Setting(RunId, launch.runId), " --run-id ");
    commandLine := AppendQuotedArgument(launch.runId, commandLine);
    OptionIsWritten(path, WithRunId(launch), Setting(CommandPipeHandle, Decimal(launch.commandReadHandle)),
                    " --command-pipe-handle ");
    commandLine := commandLine + " --command-pipe-handle ";
    commandLine := commandLine + Decimal(launch.commandReadHandle);
    OptionIsWritten(path, WithCommandPipe(launch), Setting(EventPipeHandle, Decimal(launch.eventWriteHandle)),
                    " --event-pipe-handle ");
    commandLine := commandLine + " --event-pipe-handle ";
    commandLine := commandLine + Decimal(launch.eventWriteHandle);
    if launch.configPath != [] {
      OptionIsWritten(path, WithEventPipe(launch), Setting(Config, launch.configPath), " --config ");
      commandLine := commandLine + " --config ";
      commandLine := AppendQuotedArgument(launch.configPath, commandLine);
    }
  }

  // ---------- The round trip ----------

  function Given(arguments: seq<string>): seq<Option<string>> {
    if arguments == [] then [] else [Some(arguments[0])] + Given(arguments[1..])
  }

  /** What arrives of the settings: all before the first with a NUL in its value, and that one up to its NUL. */
  function ArrivingSettings(settings: seq<Setting>): seq<Setting> {
    if settings == [] then []
    else if HasNul(settings[0].value) then [Setting(settings[0].flag, UpToNul(settings[0].value))]
    else [settings[0]] + ArrivingSettings(settings[1..])
  }

  lemma {:induction false} ArrivingAppend(settings: seq<Setting>, setting: Setting)
    requires forall k | 0 <= k < |settings| :: !HasNul(settings[k].value)
    ensures ArrivingSettings(settings + [setting]) == settings + [Setting(setting.flag, UpToNul(setting.value))]
  {
    if settings == [] {
      UpToNulIff(setting.value);
      assert [] + [setting] == [setting];
    } else {
      ArrivingAppend(settings[1..], setting);
      assert (settings + [setting])[1..] == settings[1..] + [setting];
      assert settings == [settings[0]] + settings[1..];
    }
  }

  lemma FlagsHaveNoNul(flag: Flag)
    ensures !HasNul(FlagText(flag))
  {
    UpToNulIff(FlagText(flag));
  }

  lemma SpelledFirst(setting: Setting, rest: seq<Setting>)
    ensures Spelled([setting] + rest) == [Some(FlagText(setting.flag)), Some(setting.value)] + Spelled(rest)
  {
    assert ([setting] + rest)[1..] == rest;
  }

  lemma GivenFirstTwo(a: string, b: string, rest: seq<string>)
    ensures Given([a, b] + rest) == [Some(a), Some(b)] + Given(rest)
  {
    assert ([a, b] + rest)[1..] == [b] + rest;
    assert ([b] + rest)[1..] == rest;
  }

  lemma SettingArrives(setting: Setting, rest: seq<Token>)
    ensures Arriving([Plain(FlagText(setting.flag)), ValueToken(setting)] + rest)
         == if HasNul(setting.value) then [FlagText(setting.flag), UpToNul(setting.value)]
            else [FlagText(setting.flag), setting.value] + Arriving(rest)
  {
    var flag, value := Plain(FlagText(setting.flag)), ValueToken(setting);
    FlagsHaveNoNul(setting.flag);
    assert ([flag, value] + rest)[1..] == [value] + rest;
    assert ([value] + rest)[1..] == rest;
  }

  lemma {:induction false} TokensSpellSettings(settings: seq<Setting>)
    ensures Given(Arriving(TokensOf(settings))) == Spelled(ArrivingSettings(settings))
  {
    if settings != [] {
      var setting, rest := settings[0], settings[1..];
      TokensSpellSettings(rest);
      SettingArrives(setting, TokensOf(rest));
      if HasNul(setting.value) {
        GivenFirstTwo(FlagText(setting.flag), UpToNul(setting.value), []);
        SpelledFirst(Setting(setting.flag, UpToNul(setting.value)), []);
        assert [FlagText(setting.flag), UpToNul(setting.value)] + []
            == [FlagText(setting.flag), UpToNul(setting.value)];
        assert [Setting(setting.flag, UpToNul(setting.value))] + []
            == [Setting(setting.flag, UpToNul(setting.value))];
      } else {
        GivenFirstTwo(FlagText(setting.flag), setting.value, Arriving(TokensOf(rest)));
        SpelledFirst(setting, ArrivingSettings(rest));
      }
    }
  }

  lemma {:induction false} TokensAreValid(settings: seq<Setting>)
    requires forall k | 0 <= k < |settings| :: ValueToken(settings[k]).Valid()
    ensures forall k | 0 <= k < |TokensOf(settings)| :: TokensOf(settings)[k].Valid()
  {
    if settings != [] {
      TokensAreValid(settings[1..]);
    }
  }

  /** What the child makes of the command line the parent wrote. */
  function ChildParses(launch: Launch): Result<Options, ParseError> {
    Parsed(Given(Split(ChildCommandLine(launch.executablePath, SettingsOf(launch)))))
  }

  function Meant(launch: Launch): Options {
    Options(ServerChild, launch.configPath, launch.runId, launch.commandReadHandle, launch.eventWriteHandle)
  }

  /** What the parent checks, and what Windows guarantees of a path, before it launches. */
  predicate ParentAccepts(launch: Launch) {
    && 1 <= |launch.runId| <= MAXIMUM_RUN_ID_BYTES
    && launch.commandReadHandle > 0 && launch.eventWriteHandle > 0
    && '"' !in launch.executablePath && !HasNul(launch.executablePath)
  }

  lemma NumberIsPlain(n: nat)
    ensures IsPlain(Decimal(n)) && IsValue(Decimal(n))
  {
    DecimalIsReadBack(n);
  }

  lemma SettingTokensAreValid(launch: Launch)
    ensures forall k | 0 <= k < |ChildTokens(SettingsOf(launch))| :: ChildTokens(SettingsOf(launch))[k].Valid()
  {
    NumberIsPlain(launch.commandReadHandle);
    NumberIsPlain(launch.eventWriteHandle);
    TokensAreValid(SettingsOf(launch));
  }

  lemma ModeThenSettings(settings: seq<Setting>)
    ensures Given(Arriving(ChildTokens(settings)))
         == [Some(ModeText(ServerChild))] + Spelled(ArrivingSettings(settings))
  {
    ModesHaveNoNul(ServerChild);
    TokensSpellSettings(settings);
    TokenArrives(ModeText(ServerChild), TokensOf(settings));
    GivenFirst(ModeText(ServerChild), Arriving(TokensOf(settings)));
  }

  lemma ModesHaveNoNul(mode: Mode)
    ensures !HasNul(ModeText(mode))
  {
    UpToNulIff(ModeText(mode));
  }

  lemma TokenArrives(text: string, rest: seq<Token>)
    requires !HasNul(text)
    ensures Arriving([Plain(text)] + rest) == [text] + Arriving(rest)
  {
    assert ([Plain(text)] + rest)[1..] == rest;
  }

  lemma GivenFirst(a: string, rest: seq<string>)
    ensures Given([a] + rest) == [Some(a)] + Given(rest)
  {
    assert ([a] + rest)[1..] == rest;
  }

  /** The child's argument vector after the program name spells the settings that arrive. */
  lemma ChildArguments(launch: Launch)
    requires '"' !in launch.executablePath && !HasNul(launch.executablePath)
    ensures var arguments := Given(Split(ChildCommandLine(launch.executablePath, SettingsOf(launch))));
      && |arguments| >= 2 && arguments[1] == Some(ModeText(ServerChild))
      && arguments[2..] == Spelled(ArrivingSettings(SettingsOf(launch)))
  {
    var settings := SettingsOf(launch);
    SettingTokensAreValid(launch);
    CommandLineIsSplit(launch.executablePath, ChildTokens(settings));
    ModeThenSettings(settings);
    var arguments := Split(ChildCommandLine(launch.executablePath, settings));
    GivenFirst(arguments[0], Arriving(ChildTokens(settings)));
    assert arguments == [arguments[0]] + Arriving(ChildTokens(settings));
  }

  /** What each setting adds: no flag twice, all the child's flags, and the options meant. */
  lemma SettingAdds(settings: seq<Setting>, setting: Setting)
    requires NoFlagTwice(settings, {}) && setting.flag !in Flags(settings)
    ensures NoFlagTwice(settings + [setting], {}) && Flags(settings + [setting]) == Flags(settings) + {setting.flag}
    ensures AllApplied(Defaults(ServerChild), settings + [setting])
         == Applied(AllApplied(Defaults(ServerChild), settings), setting)
  {
    NoFlagTwiceAppend(settings, setting, {});
    FlagsAppend(settings, setting);
    AppliedAppend(Defaults(ServerChild), settings, setting);
  }

  lemma SettingsMean(launch: Launch)
    requires launch.commandReadHandle > 0 && launch.eventWriteHandle > 0
    ensures NoFlagTwice(SettingsOf(launch), {}) && CHILD_FLAGS <= Flags(SettingsOf(launch))
    ensures AllApplied(Defaults(ServerChild), SettingsOf(launch)) == Meant(launch)
  {
    DecimalIsReadBack(launch.commandReadHandle);
    DecimalIsReadBack(launch.eventWriteHandle);
    SettingAdds([], Setting(RunId, launch.runId));
    SettingAdds(WithRunId(launch), Setting(CommandPipeHandle, Decimal(launch.commandReadHandle)));
    SettingAdds(WithCommandPipe(launch), Setting(EventPipeHandle, Decimal(launch.eventWriteHandle)));
    if launch.configPath != [] {
      SettingAdds(WithEventPipe(launch), Setting(Config, launch.configPath));
    }
  }

  lemma AllValidAppend(settings: seq<Setting>, setting: Setting)
    ensures AllValid(settings + [setting]) <==> AllValid(settings) && setting.Valid()
  {
    assert forall k | 0 <= k < |settings| :: (settings + [setting])[k] == settings[k];
    assert (settings + [setting])[|settings|] == setting;
  }

  lemma NumberIsValid(flag: Flag, n: uint64)
    requires n > 0 && (flag == CommandPipeHandle || flag == EventPipeHandle)
    ensures Setting(flag, Decimal(n)).Valid()
  {
    NumberIsPlain(n);
    DecimalIsReadBack(n);
  }

  lemma SettingsAreValidIff(launch: Launch)
    requires ParentAccepts(launch)
    ensures AllValid(SettingsOf(launch)) <==> !StartsWithDashes(launch.runId) && !StartsWithDashes(launch.configPath)
  {
    NumberIsValid(CommandPipeHandle, launch.commandReadHandle);
    NumberIsValid(EventPipeHandle, launch.eventWriteHandle);
    AllValidAppend([], Setting(RunId, launch.runId));
    AllValidAppend(WithRunId(launch), Setting(CommandPipeHandle, Decimal(launch.commandReadHandle)));
    AllValidAppend(WithCommandPipe(launch), Setting(EventPipeHandle, Decimal(launch.eventWriteHandle)));
    if launch.configPath != [] {
      AllValidAppend(WithEventPipe(launch), Setting(Config, launch.configPath));
    }
  }

  /** The launch as far as it arrives: the configuration path is the last argument, so a NUL cuts only that. */
  function Arrived(launch: Launch): Launch {
    launch.(configPath := UpToNul(launch.configPath))
  }

  lemma NumberHasNoNul(n: nat)
    ensures !HasNul(Decimal(n))
  {
    NumberIsPlain(n);
    UpToNulIff(Decimal(n));
  }

  lemma NumbersArrive(launch: Launch)
    requires !HasNul(launch.runId)
    ensures forall k | 0 <= k < |WithEventPipe(launch)| :: !HasNul(WithEventPipe(launch)[k].value)
    ensures ArrivingSettings(WithEventPipe(launch)) == WithEventPipe(launch)
  {
    NumberHasNoNul(launch.commandReadHandle);
    NumberHasNoNul(launch.eventWriteHandle);
    UpToNulIff(Decimal(launch.eventWriteHandle));
    assert WithCommandPipe(launch)
        == [Setting(RunId, launch.runId), Setting(CommandPipeHandle, Decimal(launch.commandReadHandle))];
    ArrivingAppend(WithCommandPipe(launch), Setting(EventPipeHandle, Decimal(launch.eventWriteHandle)));
  }

  /** A NUL in the run id cuts everything after it; one in the configuration path shortens the path. */
  lemma WhatArrives(launch: Launch)
    ensures HasNul(launch.runId) ==> ArrivingSettings(SettingsOf(launch)) == [Setting(RunId, UpToNul(launch.runId))]
    ensures !HasNul(launch.runId) ==> (
      ArrivingSettings(SettingsOf(launch))
      == if launch.configPath == [] then WithEventPipe(launch)
         else WithEventPipe(launch) + [Setting(Config, UpToNul(launch.configPath))])
  {
    if HasNul(launch.runId) {
      assert SettingsOf(launch)[0] == Setting(RunId, launch.runId);
    } else {
      NumbersArrive(launch);
      if launch.configPath != [] {
        ArrivingAppend(WithEventPipe(launch), Setting(Config, launch.configPath));
      }
    }
  }

  /** What the child makes of the settings that arrive. */
  lemma ChildReads(launch: Launch)
    requires ParentAccepts(launch)
    ensures ChildParses(launch).Ok? ==> CHILD_FLAGS <= Flags(ArrivingSettings(SettingsOf(launch)))
    ensures ChildParses(launch).Ok? <==>
      var settings := ArrivingSettings(SettingsOf(launch));
      AllValid(settings) && NoFlagTwice(settings, {}) && CHILD_FLAGS <= Flags(settings)
    ensures ChildParses(launch).Ok? ==>
      ChildParses(launch).value == AllApplied(Defaults(ServerChild), ArrivingSettings(SettingsOf(launch)))
  {
    ChildArguments(launch);
    ModeTextsDiffer();
    SpelledIsReadIffValid(ArrivingSettings(SettingsOf(launch)));
  }

  /** Without a NUL in the run id, the child reads the launch as far as it arrives, or refuses it. */
  lemma ArrivedIsRead(launch: Launch)
    requires ParentAccepts(launch) && !HasNul(launch.runId)
    ensures ChildParses(launch) == Ok(Meant(Arrived(launch)))
       <==> !StartsWithDashes(launch.runId) && !StartsWithDashes(Arrived(launch).configPath)
            && (Arrived(launch).configPath == [] ==> launch.configPath == [])
    ensures ChildParses(launch).Ok? ==> ChildParses(launch) == Ok(Meant(Arrived(launch)))
  {
    var arrived := Arrived(launch);
    ChildReads(launch);
    WhatArrives(launch);
    if arrived.configPath == [] && launch.configPath != [] {
      AllValidAppend(WithEventPipe(launch), Setting(Config, []));
    } else {
      assert ArrivingSettings(SettingsOf(launch)) == SettingsOf(arrived);
      SettingsMean(arrived);
      SettingsAreValidIff(arrived);
    }
  }

  /**
   For every launch the parent makes, the child parses exactly what was meant if and only if neither the run id nor the
   configuration path looks like a flag or holds a NUL. Otherwise it refuses, or, after a NUL in the configuration path
   alone, takes a shorter path.
   */
  lemma LaunchRoundTrip(launch: Launch)
    requires ParentAccepts(launch)
    ensures ChildParses(launch) == Ok(Meant(launch))
       <==> !StartsWithDashes(launch.runId) && !StartsWithDashes(launch.configPath)
            && !HasNul(launch.runId) && !HasNul(launch.configPath)
    ensures ChildParses(launch).Ok? ==> !HasNul(launch.runId) && ChildParses(launch) == Ok(Meant(Arrived(launch)))
  {
    if HasNul(launch.runId) {
      ChildReads(launch);
      WhatArrives(launch);
      assert CommandPipeHandle in CHILD_FLAGS;
      assert CommandPipeHandle !in Flags([Setting(RunId, UpToNul(launch.runId))]);
    } else {
      UpToNulIff(launch.configPath);
      ArrivedIsRead(launch);
    }
  }
}
