/** The fleet of world clients and their control bots, as the drain thread and admission change it under one mutex. */
module ControlFleet {
  import opened DiceRolls
  import opened Prelude
  import opened Sums
  import opened WorldClient
  import opened Xorshift

  /** A bot's dice and what it last had its client send. */
  datatype Bot = Bot(random: Word, generation: uint32, lastTurn: TurnState, lastBoost: BoostState, nextControlAt: int)

  // ---------- A client's history ----------

  datatype Entry = Admitted(generation: uint32) | Rebound | Sent(command: Command)

  /** The number the next command carries: one more than the last, or 1 after admission or a rebind. */
  function NextNumber(log: seq<Entry>): nat {
    if log == [] || !log[|log| - 1].Sent? then 1 else NextNumber(log[..|log| - 1]) + 1
  }

  /** The control state last sent; a client starts straight, without boost. */
  function LastControl(log: seq<Entry>): Control {
    if log == [] then Control(0, Straight, Off)
    else
      match log[|log| - 1]
      case Admitted(generation) => Control(generation, Straight, Off)
      case Rebound => LastControl(log[..|log| - 1])
      case Sent(command) => command.control
  }

  /** Commands are numbered 1, 2, 3 and so on between rebinds, and none repeats the control state last sent. */
  predicate LogSound(log: seq<Entry>) {
    log != [] && (
      var front, last := log[..|log| - 1], log[|log| - 1];
      if front == [] then last.Admitted?
      else
        && LogSound(front) && !last.Admitted?
        && (last.Sent? ==>
              && last.command.sequence == NextNumber(front)
              && last.command.control != LastControl(front)))
  }

  lemma LogAppends(log: seq<Entry>, entry: Entry)
    requires LogSound(log) && !entry.Admitted?
    requires entry.Sent? ==>
      entry.command.sequence == NextNumber(log) && entry.command.control != LastControl(log)
    ensures LogSound(log + [entry])
    ensures NextNumber(log + [entry]) == if entry.Sent? then NextNumber(log) + 1 else 1
    ensures LastControl(log + [entry]) == if entry.Sent? then entry.command.control else LastControl(log)
  {
    assert (log + [entry])[..|log|] == log;
  }

  lemma {:induction false} FirstIsAdmission(log: seq<Entry>)
    requires LogSound(log)
    ensures log[0].Admitted? && forall i | 0 < i < |log| :: !log[i].Admitted?
  {
    if |log| > 1 {
      FirstIsAdmission(log[..|log| - 1]);
      assert forall i | 0 <= i < |log| - 1 :: log[..|log| - 1][i] == log[i];
    }
  }

  lemma {:induction false} PrefixSound(log: seq<Entry>, k: nat)
    requires LogSound(log) && 0 < k <= |log|
    ensures LogSound(log[..k])
  {
    if k < |log| {
      PrefixSound(log[..|log| - 1], k);
      assert log[..|log| - 1][..k] == log[..k];
    } else {
      assert log[..k] == log;
    }
  }

  /** Two commands of one client with no command between them differ, in generation or in what they ask for. */
  lemma ConsecutiveCommandsDiffer(log: seq<Entry>, i: nat, j: nat)
    requires LogSound(log) && i < j < |log| && log[i].Sent? && log[j].Sent?
    requires forall k | i < k < j :: log[k] == Rebound
    ensures log[i].command.control != log[j].command.control
    ensures log[j].command.sequence == if j == i + 1 then log[i].command.sequence + 1 else 1
  {
    PrefixSound(log, j + 1);
    var upTo := log[..j + 1];
    assert upTo[..j] == log[..j];
    LastControlAcrossRebinds(log, i, j);
    if j == i + 1 {
      PrefixSound(log, j);
      assert log[..j][..i] == log[..i];
    } else {
      assert log[..j][j - 1] == log[j - 1];
    }
  }

  lemma {:induction false} LastControlAcrossRebinds(log: seq<Entry>, i: nat, j: nat)
    requires i < j <= |log| && log[i].Sent? && forall k | i < k < j :: log[k] == Rebound
    ensures LastControl(log[..j]) == log[i].command.control
  {
    assert log[..j][..j - 1] == log[..j - 1] && log[..j][j - 1] == log[j - 1];
    if i + 1 < j {
      LastControlAcrossRebinds(log, i, j - 1);
    }
  }

  // ---------- One member of the fleet ----------

  /**
   A client with its bot: sound, with the history its numbers and its bot's memory come from, and dice that never
   stick.
   */
  predicate MemberSound(client: State, bot: Bot, log: seq<Entry>) {
    && Sound(client) && !IsZero(bot.random)
    && LogSound(log) && client.nextSequence == NextNumber(log)
    && Control(bot.generation, bot.lastTurn, bot.lastBoost) == LastControl(log)
  }

  /** The log after a drain. */
  function AfterDrain(log: seq<Entry>, client: State, queue: seq<Read>): seq<Entry> {
    if Rebinds(client, queue) then log + [Rebound] else log
  }

  lemma DrainKeepsMember(client: State, bot: Bot, log: seq<Entry>, queue: seq<Read>)
    requires MemberSound(client, bot, log) && Drained(client, queue).1.None?
    ensures MemberSound(Drained(client, queue).0, bot, AfterDrain(log, client, queue))
  {
    SoundIsNeverRefused(client, queue);
    ReadsKeepSound(client, queue);
    if Rebinds(client, queue) {
      LogAppends(log, Rebound);
    }
  }

  /** The dice of one turn: where they leave the bot's state, and what they ask for. */
  datatype Roll = Roll(random: Word, turn: TurnState, boost: BoostState)

  function TurnOf(roll: nat): TurnState {
    if roll >= 75 then Right else if roll >= 50 then Left else Straight
  }

  function RollOf(random: Word, boostPercent: nat): Roll {
    var first := Next(random);
    var second := Next(first);
    Roll(second, TurnOf(Number(first) % 100), if Number(second) % 100 < boostPercent then On else Off)
  }

  lemma RollKeepsDice(random: Word, boostPercent: nat)
    requires !IsZero(random)
    ensures !IsZero(RollOf(random, boostPercent).random)
  {
    StepKeepsNonZero(random, Next(random));
    StepKeepsNonZero(Next(random), Next(Next(random)));
  }

  /** Whether the roll is sent: the entity changed generation, or the roll differs from what was sent last. */
  predicate MustSend(client: State, bot: Bot, roll: Roll) {
    bot.generation != client.generation || roll.turn != bot.lastTurn || roll.boost != bot.lastBoost
  }

  /** With its percentage the boost roll can give `boost`. */
  predicate CanRoll(boost: BoostState, boostPercent: nat) {
    if boost == On then boostPercent > 0 else boostPercent < 100
  }

  lemma TurnComesUp(turn: TurnState, boostRoll: nat) returns (random: Word, turnRoll: nat)
    requires boostRoll == 0 || boostRoll == 99
    ensures Shows(random, turnRoll, boostRoll) && TurnOf(turnRoll) == turn
  {
    match turn {
      case Straight =>
        turnRoll := if boostRoll == 0 then 16 else 13;
        StraightThenLowest(STRAIGHT_THEN_LOWEST);
        StraightThenHighest(STRAIGHT_THEN_HIGHEST);
      case Left =>
        turnRoll := if boostRoll == 0 then 64 else 73;
        LeftThenLowest(LEFT_THEN_LOWEST);
        LeftThenHighest(LEFT_THEN_HIGHEST);
      case Right =>
        turnRoll := if boostRoll == 0 then 96 else 93;
        RightThenLowest(RIGHT_THEN_LOWEST);
        RightThenHighest(RIGHT_THEN_HIGHEST);
    }
    random :| Shows(random, turnRoll, boostRoll);
  }

  /** Whatever the percentage, some state of the dice asks for any control state with a boost it allows. */
  lemma EveryRollComesUp(turn: TurnState, boost: BoostState, boostPercent: nat) returns (random: Word)
    requires boostPercent <= 100 && CanRoll(boost, boostPercent)
    ensures !IsZero(random)
    ensures RollOf(random, boostPercent).turn == turn && RollOf(random, boostPercent).boost == boost
  {
    var turnRoll;
    random, turnRoll := TurnComesUp(turn, if boost == On then 0 else 99);
  }

  /** And none asks for a boost it does not allow. */
  lemma OnlyAllowedBoosts(random: Word, boostPercent: nat)
    ensures CanRoll(RollOf(random, boostPercent).boost, boostPercent)
  {
  }

  /** The client after a rebind it accepts. */
  function AfterRebind(client: State, rebind: Rebind): State {
    AfterRead(client, RebindRead(rebind)).0
  }

  /**
   A bot up to date with its client announces a rebind at its next turn, whatever its dice show, exactly when the rebind
   changes the generation or the fleet's boost percentage rules out the boost last sent: never with 0, always with 100.
   Otherwise a rebind to another entity of the same generation may go unannounced.
   */
  lemma RebindIsAnnouncedIff(client: State, bot: Bot, rebind: Rebind, boostPercent: nat)
    requires Fits(client, rebind) && bot.generation == client.generation && boostPercent <= 100
    ensures (forall random: Word | !IsZero(random) ::
               MustSend(AfterRebind(client, rebind), bot, RollOf(random, boostPercent)))
       <==> || rebind.generation != client.generation
            || (boostPercent == 0 && bot.lastBoost == On)
            || (boostPercent == 100 && bot.lastBoost == Off)
  {
    if CanRoll(bot.lastBoost, boostPercent) {
      var random := EveryRollComesUp(bot.lastTurn, bot.lastBoost, boostPercent);
      assert MustSend(AfterRebind(client, rebind), bot, RollOf(random, boostPercent))
        <==> rebind.generation != client.generation;
    } else {
      forall random: Word
        ensures MustSend(AfterRebind(client, rebind), bot, RollOf(random, boostPercent))
      {
        OnlyAllowedBoosts(random, boostPercent);
      }
    }
  }

  /** What a member admitted at generation 1 has sent when it remembers the control state. */
  function LogOf(turn: TurnState, boost: BoostState): seq<Entry> {
    if turn == Straight && boost == Off then [Admitted(1)]
    else [Admitted(1), Sent(Command(Control(1, turn, boost), 1))]
  }

  lemma LogOfIsSound(turn: TurnState, boost: BoostState)
    ensures LogSound(LogOf(turn, boost)) && LastControl(LogOf(turn, boost)) == Control(1, turn, boost)
    ensures NextNumber(LogOf(turn, boost)) == |LogOf(turn, boost)|
  {
    var admitted := [Admitted(1)];
    assert LogSound(admitted) && admitted[..0] == [];
    if turn != Straight || boost != Off {
      assert LogOf(turn, boost) == admitted + [Sent(Command(Control(1, turn, boost), 1))];
      LogAppends(admitted, Sent(Command(Control(1, turn, boost), 1)));
    }
  }

  /**
   For every percentage and every control state last sent with a boost it allows, there are a sound member of a fleet
   and a rebind that passes the client's checks and names another entity, after which the next turn sends nothing.
   */
  lemma RebindMayGoUnnoticed(boostPercent: nat, turn: TurnState, boost: BoostState)
    requires boostPercent <= 100 && CanRoll(boost, boostPercent)
    ensures exists client: State, bot: Bot, log: seq<Entry>, rebind: Rebind ::
      && MemberSound(client, bot, log) && Playing(client) && bot.lastTurn == turn && bot.lastBoost == boost
      && Fits(client, rebind) && rebind.entityId != client.entityId
      && !MustSend(AfterRebind(client, rebind), bot, RollOf(bot.random, boostPercent))
  {
    var log, rebind := LogOf(turn, boost), Rebind(1, 1, 1, 2, 1);
    LogOfIsSound(turn, boost);
    var client := Joined(1, 1, 1).(nextSequence := |log|);
    var random := EveryRollComesUp(turn, boost, boostPercent);
    var bot := Bot(random, 1, turn, boost, 0);
    assert MemberSound(client, bot, log) && Playing(client) && bot.lastTurn == turn && bot.lastBoost == boost
        && Fits(client, rebind) && rebind.entityId != client.entityId
        && !MustSend(AfterRebind(client, rebind), bot, RollOf(bot.random, boostPercent));
  }

  // ---------- A member's pass ----------

  datatype Member = Member(client: State, bot: Bot, log: seq<Entry>)

  function MemberDrained(m: Member, queue: seq<Read>): Member {
    Member(Drained(m.client, queue).0, m.bot, AfterDrain(m.log, m.client, queue))
  }

  predicate IsDue(m: Member, observedAt: int) {
    !m.client.resultCommitted && observedAt >= m.bot.nextControlAt
  }

  /** A due bot rolls and waits for its next turn; what it must send goes out under its client's next number. */
  function MemberAfterTurn(m: Member, observedAt: int, controlInterval: nat, boostPercent: nat): Member {
    if !IsDue(m, observedAt) then m
    else
      var roll := RollOf(m.bot.random, boostPercent);
      var bot := m.bot.(random := roll.random, nextControlAt := observedAt + controlInterval);
      if !MustSend(m.client, m.bot, roll) || m.client.nextSequence == UINT32_MAX then m.(bot := bot)
      else
        var command := Command(Control(m.client.generation, roll.turn, roll.boost), m.client.nextSequence);
        Member(m.client.(nextSequence := m.client.nextSequence + 1),
               bot.(generation := m.client.generation, lastTurn := roll.turn, lastBoost := roll.boost),
               m.log + [Sent(command)])
  }

  /** The members of a fleet, in order. */
  function Zip(clients: seq<State>, bots: seq<Bot>, logs: seq<seq<Entry>>): (members: seq<Member>)
    requires |clients| == |bots| == |logs|
    ensures |members| == |clients|
  {
    if clients == [] then []
    else
      var last := |clients| - 1;
      Zip(clients[..last], bots[..last], logs[..last]) + [Member(clients[last], bots[last], logs[last])]
  }

  lemma {:induction false} ZipAt(clients: seq<State>, bots: seq<Bot>, logs: seq<seq<Entry>>, i: nat)
    requires |clients| == |bots| == |logs| && i < |clients|
    ensures Zip(clients, bots, logs)[i] == Member(clients[i], bots[i], logs[i])
  {
    var last := |clients| - 1;
    if i < last {
      ZipAt(clients[..last], bots[..last], logs[..last], i);
    }
  }

  lemma ZipUpdate(clients: seq<State>, bots: seq<Bot>, logs: seq<seq<Entry>>, i: nat, m: Member)
    requires |clients| == |bots| == |logs| && i < |clients|
    ensures Zip(clients[i := m.client], bots[i := m.bot], logs[i := m.log]) == Zip(clients, bots, logs)[i := m]
  {
    var changed := Zip(clients[i := m.client], bots[i := m.bot], logs[i := m.log]);
    forall j | 0 <= j < |clients|
      ensures changed[j] == Zip(clients, bots, logs)[i := m][j]
    {
      ZipAt(clients[i := m.client], bots[i := m.bot], logs[i := m.log], j);
      ZipAt(clients, bots, logs, j);
    }
  }

  /** Every member after its drain. */
  function AllDrained(members: seq<Member>, queues: seq<seq<Read>>): (r: seq<Member>)
    requires |queues| == |members|
    ensures |r| == |members|
  {
    if members == [] then []
    else
      var last := |members| - 1;
      AllDrained(members[..last], queues[..last]) + [MemberDrained(members[last], queues[last])]
  }

  lemma {:induction false} AllDrainedAt(members: seq<Member>, queues: seq<seq<Read>>, i: nat)
    requires |queues| == |members| && i < |members|
    ensures AllDrained(members, queues)[i] == MemberDrained(members[i], queues[i])
  {
    var last := |members| - 1;
    if i < last {
      AllDrainedAt(members[..last], queues[..last], i);
    }
  }

  /** Every member after its turn. */
  function AllTurned(members: seq<Member>, observedAt: int, controlInterval: nat, boostPercent: nat): (r: seq<Member>)
    ensures |r| == |members|
  {
    if members == [] then []
    else
      var last := |members| - 1;
      AllTurned(members[..last], observedAt, controlInterval, boostPercent)
      + [MemberAfterTurn(members[last], observedAt, controlInterval, boostPercent)]
  }

  lemma {:induction false} AllTurnedAt(members: seq<Member>, observedAt: int, controlInterval: nat, boostPercent: nat,
                                       i: nat)
    requires i < |members|
    ensures AllTurned(members, observedAt, controlInterval, boostPercent)[i]
         == MemberAfterTurn(members[i], observedAt, controlInterval, boostPercent)
  {
    var last := |members| - 1;
    if i < last {
      AllTurnedAt(members[..last], observedAt, controlInterval, boostPercent, i);
    }
  }

  /** Half-way through a pass: the members before `i` are done, the others as they were. */
  ghost predicate HalfDone(done: seq<Member>, start: seq<Member>, now: seq<Member>, i: nat) {
    && |done| == |start| == |now| && i <= |now|
    && (forall j | 0 <= j < i :: now[j] == done[j]) && (forall j | i <= j < |now| :: now[j] == start[j])
  }

  lemma OneMoreDone(done: seq<Member>, start: seq<Member>, now: seq<Member>, i: nat)
    requires HalfDone(done, start, now, i) && i < |now|
    ensures now[i] == start[i] && HalfDone(done, start, now[i := done[i]], i + 1)
    ensures done[i] == start[i] ==> HalfDone(done, start, now, i + 1)
  {
  }

  lemma AllDone(done: seq<Member>, start: seq<Member>, now: seq<Member>)
    requires HalfDone(done, start, now, |now|)
    ensures now == done
  {
  }

  /** The turn of a bot whose roll must be sent, and of one whose roll need not be. */
  lemma TurnSends(m: Member, observedAt: int, controlInterval: nat, boostPercent: nat, roll: Roll)
    requires IsDue(m, observedAt) && roll == RollOf(m.bot.random, boostPercent)
    ensures MustSend(m.client, m.bot, roll) && m.client.nextSequence < UINT32_MAX ==>
      MemberAfterTurn(m, observedAt, controlInterval, boostPercent)
      == Member(m.client.(nextSequence := m.client.nextSequence + 1),
                Bot(roll.random, m.client.generation, roll.turn, roll.boost, observedAt + controlInterval),
                m.log + [Sent(Command(Control(m.client.generation, roll.turn, roll.boost), m.client.nextSequence))])
    ensures !MustSend(m.client, m.bot, roll) ==>
      MemberAfterTurn(m, observedAt, controlInterval, boostPercent)
      == m.(bot := m.bot.(random := roll.random, nextControlAt := observedAt + controlInterval))
  {
  }

  lemma TurnKeepsMember(m: Member, observedAt: int, controlInterval: nat, boostPercent: nat)
    requires MemberSound(m.client, m.bot, m.log)
    ensures var t := MemberAfterTurn(m, observedAt, controlInterval, boostPercent); MemberSound(t.client, t.bot, t.log)
  {
    var roll := RollOf(m.bot.random, boostPercent);
    if IsDue(m, observedAt) {
      RollKeepsDice(m.bot.random, boostPercent);
      TurnSends(m, observedAt, controlInterval, boostPercent, roll);
      if MustSend(m.client, m.bot, roll) && m.client.nextSequence < UINT32_MAX {
        LogAppends(m.log, Sent(Command(Control(m.client.generation, roll.turn, roll.boost), m.client.nextSequence)));
      }
    }
  }

  // ---------- When bots act, and what they ask for ----------

  /** The dice of a turn: half straight, a quarter left, a quarter right, and boost on that many times in a hundred. */
  lemma RollBands(random: Word, boostPercent: nat)
    ensures var first, second := Next(random), Next(Next(random)); var roll := RollOf(random, boostPercent);
      && roll.random == second
      && (roll.turn == Straight <==> Number(first) % 100 < 50)
      && (roll.turn == Left <==> 50 <= Number(first) % 100 < 75)
      && (roll.turn == Right <==> 75 <= Number(first) % 100)
      && (roll.boost == On <==> Number(second) % 100 < boostPercent)
  {
  }

  /** What the client has been asked for last, as its bot remembers it. */
  function Remembered(bot: Bot): Control {
    Control(bot.generation, bot.lastTurn, bot.lastBoost)
  }

  /**
   A bot acts exactly when its client has no result yet and its time has come. It then rolls its dice, waits one
   interval from now, and has the client ask for what it rolled unless that is what was asked for last; with numbers
   left it remembers what it rolled. Otherwise nothing about the member changes.
   */
  lemma TurnIsTakenIff(m: Member, observedAt: int, controlInterval: nat, boostPercent: nat)
    ensures var t := MemberAfterTurn(m, observedAt, controlInterval, boostPercent);
      var asked := Control(m.client.generation, RollOf(m.bot.random, boostPercent).turn,
                           RollOf(m.bot.random, boostPercent).boost);
      if m.client.resultCommitted || observedAt < m.bot.nextControlAt then t == m
      else
        && t.bot.random == Next(Next(m.bot.random)) && t.bot.nextControlAt == observedAt + controlInterval
        && (if asked == Remembered(m.bot) || m.client.nextSequence == UINT32_MAX
            then t.client == m.client && t.log == m.log && Remembered(t.bot) == Remembered(m.bot)
            else
              && t.client == m.client.(nextSequence := m.client.nextSequence + 1)
              && t.log == m.log + [Sent(Command(asked, m.client.nextSequence))] && Remembered(t.bot) == asked)
  {
  }

  /** One pass as a member sees it: what its client's queue held, and the clock at the turn. */
  datatype Pass = Pass(queue: seq<Read>, observedAt: int)

  /** A member after its passes; a client with a result keeps it, and its queue is not looked at any more. */
  function AfterPasses(m: Member, passes: seq<Pass>, controlInterval: nat, boostPercent: nat): Member {
    if passes == [] then m
    else
      var last := passes[|passes| - 1];
      MemberAfterTurn(MemberDrained(AfterPasses(m, passes[..|passes| - 1], controlInterval, boostPercent), last.queue),
                      last.observedAt, controlInterval, boostPercent)
  }

  /** The member as pass `k` begins. */
  function Before(m: Member, passes: seq<Pass>, controlInterval: nat, boostPercent: nat, k: nat): Member
    requires k <= |passes|
  {
    AfterPasses(m, passes[..k], controlInterval, boostPercent)
  }

  /** The bot acts in pass `k`: it has a new time to wait for. */
  predicate Acts(m: Member, passes: seq<Pass>, controlInterval: nat, boostPercent: nat, k: nat)
    requires k < |passes|
  {
    Before(m, passes, controlInterval, boostPercent, k + 1).bot.nextControlAt
    != Before(m, passes, controlInterval, boostPercent, k).bot.nextControlAt
  }

  /** Whether the client has a result once pass `k` has drained it. */
  predicate HasResult(m: Member, passes: seq<Pass>, controlInterval: nat, boostPercent: nat, k: nat)
    requires k < |passes|
  {
    MemberDrained(Before(m, passes, controlInterval, boostPercent, k), passes[k].queue).client.resultCommitted
  }

  lemma OnePass(m: Member, passes: seq<Pass>, controlInterval: nat, boostPercent: nat, k: nat)
    requires k < |passes| && controlInterval > 0
    ensures var before, after := Before(m, passes, controlInterval, boostPercent, k).bot,
                                 Before(m, passes, controlInterval, boostPercent, k + 1).bot;
      var acts := Acts(m, passes, controlInterval, boostPercent, k);
      && (acts <==> !HasResult(m, passes, controlInterval, boostPercent, k)
                    && before.nextControlAt <= passes[k].observedAt)
      && after.nextControlAt == (if acts then passes[k].observedAt + controlInterval else before.nextControlAt)
      && after.random == (if acts then Next(Next(before.random)) else before.random)
  {
    assert passes[..k + 1][..k] == passes[..k];
    TurnIsTakenIff(MemberDrained(Before(m, passes, controlInterval, boostPercent, k), passes[k].queue),
                   passes[k].observedAt, controlInterval, boostPercent);
  }

  /** The bot acts in none of the passes from `j` up to `k`. */
  predicate Rests(m: Member, passes: seq<Pass>, controlInterval: nat, boostPercent: nat, j: nat, k: nat)
    requires k <= |passes|
  {
    j >= k || (
      && !Acts(m, passes, controlInterval, boostPercent, k - 1)
      && Rests(m, passes, controlInterval, boostPercent, j, k - 1))
  }

  /** Once a bot has acted it waits for one interval from then, or from a later time it acted. */
  lemma {:induction false} WaitsOneInterval(m: Member, passes: seq<Pass>, controlInterval: nat, boostPercent: nat,
                                            j: nat, k: nat)
    requires j < k <= |passes| && controlInterval > 0 && Acts(m, passes, controlInterval, boostPercent, j)
    ensures var next := Before(m, passes, controlInterval, boostPercent, k).bot.nextControlAt;
      && next >= passes[j].observedAt + controlInterval
      && (Rests(m, passes, controlInterval, boostPercent, j + 1, k) ==> next == passes[j].observedAt + controlInterval)
  {
    OnePass(m, passes, controlInterval, boostPercent, k - 1);
    if j < k - 1 {
      WaitsOneInterval(m, passes, controlInterval, boostPercent, j, k - 1);
    }
  }

  /**
   Over any run of passes: two turns of one bot are at least one interval apart, and after a turn the bot acts again in
   the first pass that comes an interval later, unless its client has a result by then.
   */
  lemma ActsOncePerInterval(m: Member, passes: seq<Pass>, controlInterval: nat, boostPercent: nat, j: nat, k: nat)
    requires j < k < |passes| && controlInterval > 0 && Acts(m, passes, controlInterval, boostPercent, j)
    ensures Acts(m, passes, controlInterval, boostPercent, k) ==>
      passes[k].observedAt >= passes[j].observedAt + controlInterval
    ensures Rests(m, passes, controlInterval, boostPercent, j + 1, k) ==>
      (Acts(m, passes, controlInterval, boostPercent, k) <==>
         !HasResult(m, passes, controlInterval, boostPercent, k)
         && passes[k].observedAt >= passes[j].observedAt + controlInterval)
  {
    WaitsOneInterval(m, passes, controlInterval, boostPercent, j, k);
    OnePass(m, passes, controlInterval, boostPercent, k);
  }

  /** A pass of the whole fleet gives every member its own pass. */
  lemma FleetPassIsMemberPass(members: seq<Member>, queues: seq<seq<Read>>, observedAt: int, controlInterval: nat,
                              boostPercent: nat, i: nat)
    requires |queues| == |members| && i < |members|
    ensures AllTurned(AllDrained(members, queues), observedAt, controlInterval, boostPercent)[i]
         == AfterPasses(members[i], [Pass(queues[i], observedAt)], controlInterval, boostPercent)
  {
    AllDrainedAt(members, queues, i);
    AllTurnedAt(AllDrained(members, queues), observedAt, controlInterval, boostPercent, i);
    assert [Pass(queues[i], observedAt)][..0] == [];
  }

  // ---------- The commands sent ----------

  function CommandsIn(log: seq<Entry>): int {
    if log == [] then 0 else CommandsIn(log[..|log| - 1]) + (if log[|log| - 1].Sent? then 1 else 0)
  }

  function Commands(m: Member): int {
    CommandsIn(m.log)
  }

  lemma CommandsAppend(log: seq<Entry>, entry: Entry)
    ensures CommandsIn(log + [entry]) == CommandsIn(log) + (if entry.Sent? then 1 else 0)
  {
    assert (log + [entry])[..|log|] == log;
  }

  lemma DrainSendsNothing(members: seq<Member>, i: nat, queue: seq<Read>)
    requires i < |members|
    ensures Sum(members[i := MemberDrained(members[i], queue)], Commands) == Sum(members, Commands)
  {
    SumUpdate(members, i, MemberDrained(members[i], queue), Commands);
    CommandsAppend(members[i].log, Rebound);
  }

  /** Whether a due bot has its client send. */
  predicate Sends(m: Member, boostPercent: nat) {
    MustSend(m.client, m.bot, RollOf(m.bot.random, boostPercent))
  }

  lemma TurnSendsOne(members: seq<Member>, i: nat, observedAt: int, controlInterval: nat, boostPercent: nat)
    requires i < |members| && IsDue(members[i], observedAt)
    requires Sends(members[i], boostPercent) ==> members[i].client.nextSequence < UINT32_MAX
    ensures Sum(members[i := MemberAfterTurn(members[i], observedAt, controlInterval, boostPercent)], Commands)
         == Sum(members, Commands) + (if Sends(members[i], boostPercent) then 1 else 0)
  {
    var m := members[i];
    var roll := RollOf(m.bot.random, boostPercent);
    SumUpdate(members, i, MemberAfterTurn(m, observedAt, controlInterval, boostPercent), Commands);
    TurnSends(m, observedAt, controlInterval, boostPercent, roll);
    CommandsAppend(m.log, Sent(Command(Control(m.client.generation, roll.turn, roll.boost), m.client.nextSequence)));
  }

  lemma AdmissionSendsNothing(members: seq<Member>, m: Member)
    requires m.log == [Admitted(m.client.generation)]
    ensures Sum(members + [m], Commands) == Sum(members, Commands)
  {
    SumOfLast(members + [m], Commands);
    assert (members + [m])[..|members|] == members;
    CommandsAppend([], m.log[0]);
    assert [] + [m.log[0]] == m.log;
  }

  // ---------- The fleet ----------

  predicate MembersSound(members: seq<Member>) {
    members == [] || (
      var last := members[|members| - 1];
      MemberSound(last.client, last.bot, last.log) && MembersSound(members[..|members| - 1]))
  }

  lemma {:induction false} MemberSoundAt(members: seq<Member>, i: nat)
    requires MembersSound(members) && i < |members|
    ensures MemberSound(members[i].client, members[i].bot, members[i].log)
  {
    if i < |members| - 1 {
      MemberSoundAt(members[..|members| - 1], i);
    }
  }

  lemma {:induction false} MembersSoundUpdate(members: seq<Member>, i: nat, m: Member)
    requires MembersSound(members) && i < |members| && MemberSound(m.client, m.bot, m.log)
    ensures MembersSound(members[i := m])
  {
    var last := |members| - 1;
    if i < last {
      MembersSoundUpdate(members[..last], i, m);
      assert members[i := m][..last] == members[..last][i := m];
    } else {
      assert members[i := m][..last] == members[..last];
    }
  }

  ghost predicate FleetSound(clients: seq<State>, bots: seq<Bot>, logs: seq<seq<Entry>>) {
    |clients| == |bots| == |logs| && MembersSound(Zip(clients, bots, logs))
  }

  lemma FleetAt(clients: seq<State>, bots: seq<Bot>, logs: seq<seq<Entry>>, i: nat)
    requires FleetSound(clients, bots, logs) && i < |clients|
    ensures MemberSound(clients[i], bots[i], logs[i])
    ensures Zip(clients, bots, logs)[i] == Member(clients[i], bots[i], logs[i])
  {
    MemberSoundAt(Zip(clients, bots, logs), i);
    ZipAt(clients, bots, logs, i);
  }

  /** Replacing a member by a sound one keeps the fleet sound. */
  lemma FleetAfterChange(clients: seq<State>, bots: seq<Bot>, logs: seq<seq<Entry>>, i: nat, m: Member)
    requires FleetSound(clients, bots, logs) && i < |clients| && MemberSound(m.client, m.bot, m.log)
    ensures FleetSound(clients[i := m.client], bots[i := m.bot], logs[i := m.log])
    ensures Zip(clients[i := m.client], bots[i := m.bot], logs[i := m.log]) == Zip(clients, bots, logs)[i := m]
  {
    ZipUpdate(clients, bots, logs, i, m);
    MembersSoundUpdate(Zip(clients, bots, logs), i, m);
  }

  lemma FleetAdmits(clients: seq<State>, bots: seq<Bot>, logs: seq<seq<Entry>>, m: Member)
    requires FleetSound(clients, bots, logs) && MemberSound(m.client, m.bot, m.log)
    ensures FleetSound(clients + [m.client], bots + [m.bot], logs + [m.log])
    ensures Zip(clients + [m.client], bots + [m.bot], logs + [m.log]) == Zip(clients, bots, logs) + [m]
  {
    var n := |clients|;
    assert (clients + [m.client])[..n] == clients && (bots + [m.bot])[..n] == bots && (logs + [m.log])[..n] == logs;
    assert (Zip(clients, bots, logs) + [m])[..n] == Zip(clients, bots, logs);
  }

  class Fleet {
    const boostPercent: nat
    const controlInterval: nat
    const workloadSeed: uint32
    var clients: seq<State>
    var bots: seq<Bot>
    var sentControlCommandCount: nat
    /** The error that ended the drain thread; nothing touches the clients after it but Shutdown. */
    var drainError: Option<Error>
    ghost var logs: seq<seq<Entry>>

    ghost predicate Valid()
      reads this
    {
      |clients| == |bots| <= UINT32_MAX && (drainError.None? ==> FleetSound(clients, bots, logs) && Counted())
    }

    /** The count of commands sent is that of all clients together. */
    ghost predicate Counted()
      reads this
      requires |clients| == |bots| == |logs|
    {
      sentControlCommandCount == Sum(Members(), Commands)
    }

    ghost function Members(): seq<Member>
      reads this
      requires |clients| == |bots| == |logs|
    {
      Zip(clients, bots, logs)
    }

    /** A fleet with the control workload started and nobody admitted. */
    constructor (workloadSeed: uint32, controlInterval: nat, boostPercent: nat)
      requires controlInterval > 0 && boostPercent <= 100
      ensures Valid() && clients == [] && drainError.None?
    {
      this.workloadSeed, this.controlInterval, this.boostPercent := workloadSeed, controlInterval, boostPercent;
      clients, bots, logs, sentControlCommandCount, drainError := [], [], [], 0, None;
    }

    /** Admission of a client that has joined. */
    method Admit(client: State, now: int)
      requires Valid() && drainError.None? && |clients| < UINT32_MAX
      requires client == Joined(client.playerId, client.entityId, client.generation)
      modifies this`clients, this`bots, this`logs
      ensures Valid() && clients == old(clients) + [client] && bots == old(bots)
        + [Bot(Bits(ClientSeed(workloadSeed, old(|clients|)), WORD_BITS), client.generation, Straight, Off,
               now + controlInterval)]
      ensures logs == old(logs) + [[Admitted(client.generation)]]
    {
      var clientSeed := ClientSeed(workloadSeed, |clients|);
      SeedIsNotZero(workloadSeed, |clients|);
      var bot := Bot(Bits(clientSeed, WORD_BITS), client.generation, Straight, Off, now + controlInterval);
      ghost var member := Member(client, bot, [Admitted(client.generation)]);
      FleetAdmits(clients, bots, logs, member);
      AdmissionSendsNothing(Members(), member);
      clients, bots, logs := clients + [client], bots + [bot], logs + [[Admitted(client.generation)]];
    }

    /** One pass of the drain thread: drain every client, then send the controls that are due. */
    method DrainPass(queues: seq<seq<Read>>, observedAt: int, taken: seq<bool>) returns (error: Option<Error>)
      requires Valid() && drainError.None? && |queues| == |clients| == |taken|
      modifies this
      ensures Valid() && drainError == error && |clients| == old(|clients|)
      ensures error.None? ==> FleetSound(clients, bots, logs) && Counted()
      ensures error.None? ==>
        Members() == AllTurned(AllDrained(old(Members()), queues), observedAt, controlInterval, boostPercent)
      ensures error != Some(DrainStateInvalid) && error != Some(SendStateInvalid) && error != Some(CountsDiffer)
    {
      error := DrainClients(queues);
      if error.None? {
        error := SendDueControls(observedAt, taken);
      }
      drainError := error;
    }

    /** Puts one client and its bot in place; `m` is them with their history. */
    method Replace(i: nat, client: State, bot: Bot, ghost m: Member)
      requires FleetSound(clients, bots, logs) && i < |clients|
      requires m.client == client && m.bot == bot && MemberSound(client, bot, m.log)
      modifies this`clients, this`bots, this`logs
      ensures FleetSound(clients, bots, logs) && |clients| == old(|clients|)
      ensures Members() == old(Members())[i := m]
    {
      FleetAfterChange(clients, bots, logs, i, m);
      clients, bots, logs := clients[i := client], bots[i := bot], logs[i := m.log];
    }

    /** Drains one client. */
    method DrainClient(i: nat, queue: seq<Read>) returns (error: Option<Error>)
      requires FleetSound(clients, bots, logs) && Counted() && i < |clients|
      modifies this`clients, this`bots, this`logs
      ensures |clients| == |bots| == old(|clients|)
      ensures error.None? ==> FleetSound(clients, bots, logs) && Counted()
      ensures error.None? ==> Members() == old(Members())[i := MemberDrained(old(Members())[i], queue)]
      ensures error != Some(DrainStateInvalid) && error != Some(SendStateInvalid) && error != Some(CountsDiffer)
    {
      FleetAt(clients, bots, logs, i);
      SoundIsNeverRefused(clients[i], queue);
      NoOtherComplaint(clients[i], queue);
      var (client, drained) := Drained(clients[i], queue);
      if drained.Some? {
        clients := clients[i := client];
        return drained;
      }
      DrainKeepsMember(clients[i], bots[i], logs[i], queue);
      DrainSendsNothing(Members(), i, queue);
      Replace(i, client, bots[i], MemberDrained(Members()[i], queue));
      error := None;
    }

    method DrainClients(queues: seq<seq<Read>>) returns (error: Option<Error>)
      requires FleetSound(clients, bots, logs) && Counted() && |queues| == |clients|
      modifies this`clients, this`bots, this`logs
      ensures |clients| == |bots| == old(|clients|)
      ensures error.None? ==> FleetSound(clients, bots, logs) && Counted()
      ensures error.None? ==> Members() == AllDrained(old(Members()), queues)
      ensures error != Some(DrainStateInvalid) && error != Some(SendStateInvalid) && error != Some(CountsDiffer)
    {
      ghost var start := Members();
      ghost var done := AllDrained(start, queues);
      for i := 0 to |clients|
        invariant |clients| == |bots| == |queues| == old(|clients|) && FleetSound(clients, bots, logs) && Counted()
        invariant HalfDone(done, start, Members(), i)
      {
        OneMoreDone(done, start, Members(), i);
        AllDrainedAt(start, queues, i);
        error := DrainClient(i, queues[i]);
        if error.Some? {
          return;
        }
      }
      AllDone(done, start, Members());
      error := None;
    }

    /** Rolls the dice of every bot whose turn it is. */
    method SendDueControls(observedAt: int, taken: seq<bool>) returns (error: Option<Error>)
      requires FleetSound(clients, bots, logs) && Counted() && |taken| == |clients| <= UINT32_MAX
      modifies this`clients, this`bots, this`sentControlCommandCount, this`logs
      ensures |clients| == |bots| == old(|clients|)
      ensures error.None? ==> FleetSound(clients, bots, logs) && Counted()
      ensures error.None? ==> Members() == AllTurned(old(Members()), observedAt, controlInterval, boostPercent)
      ensures error.None? || error == Some(SequenceExhausted) || error == Some(SendFailed)
    {
      if |bots| != |clients| {
        assert false;
      }
      ghost var start := Members();
      ghost var done := AllTurned(start, observedAt, controlInterval, boostPercent);
      for i := 0 to |clients|
        invariant |clients| == |taken| == |bots| == old(|clients|) && FleetSound(clients, bots, logs) && Counted()
        invariant HalfDone(done, start, Members(), i)
      {
        FleetAt(clients, bots, logs, i);
        OneMoreDone(done, start, Members(), i);
        AllTurnedAt(start, observedAt, controlInterval, boostPercent, i);
        if clients[i].resultCommitted || observedAt < bots[i].nextControlAt {
          continue;
        }
        ghost var before := Members();
        error := RollAndSend(i, observedAt, taken[i]);
        if error.Some? {
          return;
        }
        TurnSendsOne(before, i, observedAt, controlInterval, boostPercent);
      }
      AllDone(done, start, Members());
      error := None;
    }

    /** One bot's turn. */
    method RollAndSend(i: nat, observedAt: int, taken: bool) returns (error: Option<Error>)
      requires FleetSound(clients, bots, logs) && i < |clients|
      requires IsDue(Member(clients[i], bots[i], logs[i]), observedAt)
      modifies this`clients, this`bots, this`sentControlCommandCount, this`logs
      ensures |clients| == |bots| == old(|clients|)
      ensures error.None? ==> FleetSound(clients, bots, logs)
      ensures error.None? || error == Some(SequenceExhausted) || error == Some(SendFailed)
      ensures error.None? ==> Members() == old(Members())[i :=
        MemberAfterTurn(Member(old(clients[i]), old(bots[i]), old(logs[i])), observedAt, controlInterval, boostPercent)]
      ensures error.None? ==>
        var sends := Sends(Member(old(clients[i]), old(bots[i]), old(logs[i])), boostPercent);
        && sentControlCommandCount == old(sentControlCommandCount) + (if sends then 1 else 0)
        && (sends ==> old(clients[i]).nextSequence < UINT32_MAX)
    {
      var client, bot := clients[i], bots[i];
      var roll := RollOf(bot.random, boostPercent);
      ghost var member := Member(client, bot, logs[i]);
      ghost var after := MemberAfterTurn(member, observedAt, controlInterval, boostPercent);
      FleetAt(clients, bots, logs, i);
      SoundIsNeverRefused(client, []);
      TurnSends(member, observedAt, controlInterval, boostPercent, roll);
      TurnKeepsMember(member, observedAt, controlInterval, boostPercent);
      if !MustSend(client, bot, roll) {
        Replace(i, client, bot.(random := roll.random, nextControlAt := observedAt + controlInterval), after);
        return None;
      }
      if SendRefusal(client).Some? || !taken {
        bots := bots[i := bot.(random := roll.random)];
        return if SendRefusal(client).Some? then SendRefusal(client) else Some(SendFailed);
      }
      Replace(i, client.(nextSequence := client.nextSequence + 1),
              Bot(roll.random, client.generation, roll.turn, roll.boost, observedAt + controlInterval), after);
      sentControlCommandCount := sentControlCommandCount + 1;
      error := None;
    }

    /** Whether every client has its result, and all results agree with the first. */
    method ValidateRoundResults() returns (agreed: bool)
      requires forall i | 0 <= i < |clients| :: clients[i].resultCommitted ==> clients[i].result.Some?
      ensures agreed <==> (
        && clients != []
        && (forall i | 0 <= i < |clients| :: clients[i].resultCommitted)
        && (forall i, j | 0 <= i < |clients| && 0 <= j < |clients| :: clients[i].result == clients[j].result))
    {
      if clients == [] {
        return false;
      }
      for i := 0 to |clients|
        invariant forall j | 0 <= j < i :: clients[j].resultCommitted
      {
        if !clients[i].resultCommitted {
          return false;
        }
      }
      var expected := clients[0].result;
      for i := 1 to |clients|
        invariant forall j | 0 <= j < i :: clients[j].result == expected
      {
        if clients[i].result != expected {
          return false;
        }
      }
      agreed := true;
    }
  }

  lemma {:induction false} NoOtherComplaint(client: State, queue: seq<Read>)
    ensures AfterReads(client, queue).1 != Some(SendStateInvalid) && AfterReads(client, queue).1 != Some(CountsDiffer)
    decreases |queue|
  {
    if queue != [] && !client.connectionClosed {
      NoOtherComplaint(AfterRead(client, queue[0]).0, queue[1..]);
    }
  }
}
