/**
 * The Barbarian Assault plugin: one long-lived object whose event handlers
 * keep the wave/game timer, the current round's role and the egg location
 * maps up to date, send duration announcements to chat, and paint the
 * Collector's "Take" menu entries.
 *
 * The host's inputs (configuration switches, widget texts, the in-game
 * variable, whether the player is in an instanced region, the menu entry
 * array) are parameters of the handlers.
 */
module BarbarianAssault {
  import opened Wrappers
  import opened JavaString
  import opened EggTables
  import opened EggTracker
  import opened MenuHighlight
  import opened WaveMessage

  /** The wave token that starts a new game. */
  const StartWave: string := "1"

  /** Text on the reward screen that marks the end of a whole game. */
  const EndgameRewardNeedle: string := "<br>5"

  /** Leading text of the end-of-game announcement. */
  const GameFinishedText: string := "Game finished, duration: "

  /** Widget groups the plugin reacts to (ids from the host's widget table). */
  const RewardGroupId: int := 497
  const AttackerGroupId: int := 485
  const CollectorGroupId: int := 486
  const DefenderGroupId: int := 487
  const HealerGroupId: int := 488

  datatype Role = Attacker | Defender | Healer | Collector

  /** The round shown by the overlay; only its role matters here. */
  datatype Round = Round(roundRole: Role)

  /**
   * The game timer, as far as this model sees it: `serial` tells which start
   * created it (its game-start checkpoint), `waveResets` how often its
   * wave-start checkpoint has been moved since.
   */
  datatype GameTimer = GameTimer(serial: nat, waveResets: nat)

  /** A duration announcement queued to chat: its leading text, the timer read, and getTime's argument. */
  datatype Announcement = Announcement(preText: string, timer: GameTimer, waveTime: bool)

  datatype ChatMessageType = GameMessage | OtherMessageType

  /** The one exception a handler can raise here. */
  datatype JavaException = ArrayIndexOutOfBounds

  /** How a handler returned: normally, or by throwing (the host then drops the event). */
  datatype Outcome = Completed | Threw(exception: JavaException)

  /** The widget group that announces each role. */
  function RoleGroupId(role: Role): int
  {
    match role
    case Attacker => AttackerGroupId
    case Defender => DefenderGroupId
    case Healer => HealerGroupId
    case Collector => CollectorGroupId
  }

  /** The role cases of onWidgetLoaded's switch: the role whose widget group was loaded, if any. */
  function RoleOfGroup(groupId: int): (r: Option<Role>)
    ensures forall role :: r == Some(role) <==> groupId == RoleGroupId(role)
    ensures groupId == RewardGroupId ==> r == None
  {
    if groupId == AttackerGroupId then Some(Attacker)
    else if groupId == DefenderGroupId then Some(Defender)
    else if groupId == HealerGroupId then Some(Healer)
    else if groupId == CollectorGroupId then Some(Collector)
    else None
  }

  /** The leading text of the announcement made when wave `wave` ends. */
  function WaveDurationText(wave: string): string
  {
    "Wave " + wave + " duration: "
  }

  class Plugin {
    /** The in-game variable's value seen by the previous variable change. */
    var inGameBit: int
    /** The token of the wave most recently announced in chat. */
    var currentWave: string
    /** The running game timer, if any (Java null otherwise). */
    var gameTime: Option<GameTimer>
    /** The round shown by the overlay (the overlay owns this field in the host). */
    var currentRound: Option<Round>
    var redEggs: map<WorldPoint, int>
    var greenEggs: map<WorldPoint, int>
    var blueEggs: map<WorldPoint, int>
    var yellowEggs: map<WorldPoint, int>
    /**
     * How many timers have been created so far, which is the serial the next
     * one gets: it stands for the identity of each `new GameTimer()`.
     */
    var timersStarted: nat
    /** Everything announced to chat so far, oldest first. */
    ghost var announcements: seq<Announcement>

    ghost predicate Valid()
      reads this
    {
      && CountsPositive(redEggs) && CountsPositive(greenEggs)
      && CountsPositive(blueEggs) && CountsPositive(yellowEggs)
      && (gameTime.Some? ==> gameTime.value.serial < timersStarted)
    }

    /** The location map of one colour. */
    function EggMap(c: EggColor): map<WorldPoint, int>
      reads this
    {
      match c
      case RedEgg => redEggs
      case GreenEgg => greenEggs
      case BlueEgg => blueEggs
      case YellowEgg => yellowEggs
    }

    /** getEggMap: the location map an item id feeds, or None for an item that is not an egg. */
    function GetEggMap(itemId: int): (r: Option<map<WorldPoint, int>>)
      reads this
      ensures r.Some? <==> IsEgg(itemId)
      ensures forall c :: itemId == EggItemId(c) ==> r == Some(EggMap(c))
    {
      match EggColorOf(itemId)
      case Some(c) => Some(EggMap(c))
      case None => None
    }

    /**
     * getCalledEggMap: the location map of the colour the Collector heard
     * called, for the exact red, green and blue calls; None for a yellow
     * call, an absent widget or any other text.
     */
    function GetCalledEggMap(calledEgg: Option<string>): (r: Option<map<WorldPoint, int>>)
      reads this
      ensures r.Some? <==> exists c :: c != YellowEgg && calledEgg == Some(CallText(c))
      ensures forall c :: c != YellowEgg && calledEgg == Some(CallText(c)) ==> r == Some(EggMap(c))
    {
      match CalledEggColor(calledEgg)
      case Some(c) => Some(EggMap(c))
      case None => None
    }

    /** A freshly loaded and started plugin: field initialisers, then startUp's empty maps. */
    constructor ()
      ensures Valid()
      ensures inGameBit == 0 && currentWave == StartWave && gameTime == None && currentRound == None
      ensures forall c :: EggMap(c) == map[]
      ensures timersStarted == 0 && announcements == []
    {
      inGameBit := 0;
      currentWave := StartWave;
      gameTime := None;
      currentRound := None;
      redEggs, greenEggs, blueEggs, yellowEggs := map[], map[], map[], map[];
      timersStarted := 0;
      announcements := [];
    }

    /** startUp: the four location maps are created afresh; nothing else is touched. */
    method StartUp()
      requires Valid()
      modifies this
      ensures Valid()
      ensures forall c :: EggMap(c) == map[]
      ensures inGameBit == old(inGameBit) && currentWave == old(currentWave) && gameTime == old(gameTime)
      ensures currentRound == old(currentRound) && timersStarted == old(timersStarted)
      ensures announcements == old(announcements)
    {
      redEggs, greenEggs, blueEggs, yellowEggs := map[], map[], map[], map[];
    }

    /**
     * shutDown: the timer is dropped and the wave token and in-game bit go
     * back to their initial values; the round and the egg maps are left as
     * they are.
     */
    method ShutDown()
      requires Valid()
      modifies this
      ensures Valid()
      ensures gameTime == None && currentWave == StartWave && inGameBit == 0
      ensures currentRound == old(currentRound) && forall c :: EggMap(c) == old(EggMap(c))
      ensures timersStarted == old(timersStarted) && announcements == old(announcements)
    {
      gameTime := None;
      currentWave := StartWave;
      inGameBit := 0;
    }

    /**
     * setOverlayRound: a round already shown is kept (role widgets load again
     * when a panel is reopened); with none shown, a round of `role` starts.
     */
    method SetOverlayRound(role: Role)
      modifies this`currentRound
      ensures old(currentRound).Some? ==> currentRound == old(currentRound)
      ensures old(currentRound).None? ==> currentRound == Some(Round(role))
    {
      if currentRound.Some? {
        return;
      }
      currentRound := Some(Round(role));
    }

    /**
     * onWidgetLoaded: the reward screen ends the game (one announcement of the
     * whole game's duration, then no timer) when wave times are on, the
     * reward text is there and holds the end-of-game marker, and a timer
     * runs; a role screen starts a round of that role unless one is shown;
     * any other group changes nothing.
     */
    method OnWidgetLoaded(groupId: int, waveTimes: bool, rewardText: Option<string>)
      requires Valid()
      modifies this
      ensures Valid()
      ensures groupId == RewardGroupId ==> currentRound == old(currentRound)
      ensures groupId == RewardGroupId && waveTimes && rewardText.Some?
                && Contains(rewardText.value, EndgameRewardNeedle) && old(gameTime).Some? ==>
                gameTime == None
                && announcements == old(announcements) + [Announcement(GameFinishedText, old(gameTime).value, false)]
      ensures !(groupId == RewardGroupId && waveTimes && rewardText.Some?
                && Contains(rewardText.value, EndgameRewardNeedle) && old(gameTime).Some?) ==>
                gameTime == old(gameTime) && announcements == old(announcements)
      ensures forall role :: groupId == RoleGroupId(role) ==>
                currentRound == if old(currentRound).Some? then old(currentRound) else Some(Round(role))
      ensures groupId != RewardGroupId && RoleOfGroup(groupId).None? ==> currentRound == old(currentRound)
      ensures inGameBit == old(inGameBit) && currentWave == old(currentWave)
      ensures forall c :: EggMap(c) == old(EggMap(c))
      ensures timersStarted == old(timersStarted)
    {
      if groupId == RewardGroupId {
        if waveTimes && rewardText.Some? && Contains(rewardText.value, EndgameRewardNeedle) && gameTime.Some? {
          announcements := announcements + [Announcement(GameFinishedText, gameTime.value, false)];
          gameTime := None;
        }
      } else {
        var role := RoleOfGroup(groupId);
        if role.Some? {
          SetOverlayRound(role.value);
        }
      }
    }

    /**
     * onChatMessage: only a game message starting "---- Wave:" has an effect.
     * Its third space-separated word becomes the current wave; wave "1"
     * starts a new timer, any other wave moves a running timer's wave start.
     * A message with fewer than three words throws before anything changes.
     */
    method OnChatMessage(msgType: ChatMessageType, message: string) returns (outcome: Outcome)
      requires Valid()
      modifies this
      ensures Valid()
      ensures !(msgType == GameMessage && StartsWith(message, WaveMessagePrefix)) ==>
                outcome == Completed && unchanged(this)
      ensures msgType == GameMessage && StartsWith(message, WaveMessagePrefix) && |Split(message)| <= WaveNumIndex ==>
                outcome == Threw(ArrayIndexOutOfBounds) && unchanged(this)
      ensures msgType == GameMessage && StartsWith(message, WaveMessagePrefix) && |Split(message)| > WaveNumIndex ==>
                && outcome == Completed
                && currentWave == Split(message)[WaveNumIndex]
                && (currentWave == StartWave ==>
                      gameTime == Some(GameTimer(old(timersStarted), 0)) && timersStarted == old(timersStarted) + 1)
                && (currentWave != StartWave ==>
                      timersStarted == old(timersStarted)
                      && gameTime == match old(gameTime)
                                     case Some(t) => Some(GameTimer(t.serial, t.waveResets + 1))
                                     case None => None)
      ensures inGameBit == old(inGameBit) && currentRound == old(currentRound)
      ensures forall c :: EggMap(c) == old(EggMap(c))
      ensures announcements == old(announcements)
    {
      if msgType == GameMessage && StartsWith(message, WaveMessagePrefix) {
        var words := Split(message);
        if |words| <= WaveNumIndex {
          return Threw(ArrayIndexOutOfBounds);
        }
        currentWave := words[WaveNumIndex];
        if currentWave == StartWave {
          gameTime := Some(GameTimer(timersStarted, 0));
          timersStarted := timersStarted + 1;
        } else if gameTime.Some? {
          // setWaveStartTime: only the wave checkpoint moves
          gameTime := Some(GameTimer(gameTime.value.serial, gameTime.value.waveResets + 1));
        }
      }
      outcome := Completed;
    }

    /**
     * onVarbitChanged: when the in-game variable leaves 1 the round ends, and
     * the wave's duration is announced once if wave times are on, a timer
     * runs and the player is still in an instanced region. The timer itself
     * is kept. Afterwards the stored bit is the new value.
     */
    method OnVarbitChanged(inGame: int, waveTimes: bool, inInstancedRegion: bool)
      requires Valid()
      modifies this
      ensures Valid()
      ensures inGameBit == inGame
      ensures old(inGameBit) != inGame && old(inGameBit) == 1 ==> currentRound == None
      ensures !(old(inGameBit) != inGame && old(inGameBit) == 1) ==> currentRound == old(currentRound)
      ensures announcements == old(announcements) +
                if old(inGameBit) != inGame && old(inGameBit) == 1 && waveTimes && gameTime.Some? && inInstancedRegion
                then [Announcement(WaveDurationText(currentWave), gameTime.value, true)]
                else []
      ensures gameTime == old(gameTime) && currentWave == old(currentWave)
      ensures forall c :: EggMap(c) == old(EggMap(c))
      ensures timersStarted == old(timersStarted)
    {
      if inGameBit != inGame {
        if inGameBit == 1 {
          currentRound := None;
          if waveTimes && gameTime.Some? && inInstancedRegion {
            announcements := announcements + [Announcement(WaveDurationText(currentWave), gameTime.value, true)];
          }
        }
      }
      inGameBit := inGame;
    }

    /** Replaces the location map of colour `c`. */
    method SetEggMap(c: EggColor, m: map<WorldPoint, int>)
      modifies this
      ensures EggMap(c) == m
      ensures forall d :: d != c ==> EggMap(d) == old(EggMap(d))
      ensures inGameBit == old(inGameBit) && currentWave == old(currentWave) && gameTime == old(gameTime)
      ensures currentRound == old(currentRound) && timersStarted == old(timersStarted)
      ensures announcements == old(announcements)
    {
      match c
      case RedEgg => redEggs := m;
      case GreenEgg => greenEggs := m;
      case BlueEgg => blueEggs := m;
      case YellowEgg => yellowEggs := m;
    }

    /**
     * onItemSpawned: an egg spawning on a tile adds one to that tile's count
     * in its colour's map (a new tile starts at 1); every other tile, the
     * other colours' maps and everything else stay as they were. Any other
     * item changes nothing.
     */
    method OnItemSpawned(itemId: int, worldPoint: WorldPoint)
      requires Valid()
      modifies this
      ensures Valid()
      ensures forall c :: EggMap(c) == if itemId == EggItemId(c) then Recorded(old(EggMap(c)), worldPoint) else old(EggMap(c))
      ensures !IsEgg(itemId) ==> unchanged(this)
      ensures inGameBit == old(inGameBit) && currentWave == old(currentWave) && gameTime == old(gameTime)
      ensures currentRound == old(currentRound) && timersStarted == old(timersStarted)
      ensures announcements == old(announcements)
    {
      var color := EggColorOf(itemId);
      if color.Some? {
        var eggMap := EggMap(color.value);
        // putIfAbsent(worldPoint, 1) returns the previous count, or null
        var existingQuantity := if worldPoint in eggMap then Some(eggMap[worldPoint]) else None;
        if existingQuantity.None? {
          eggMap := eggMap[worldPoint := 1];
        }
        if existingQuantity.Some? {
          eggMap := eggMap[worldPoint := existingQuantity.value + 1];
        }
        assert eggMap == Recorded(old(EggMap(color.value)), worldPoint);
        assert CountsPositive(old(EggMap(color.value)));
        SetEggMap(color.value, eggMap);
        assert forall c :: CountsPositive(EggMap(c)) by {
          forall c ensures CountsPositive(EggMap(c)) {
            if c != color.value {
              assert CountsPositive(old(EggMap(c)));
            }
          }
        }
        assert redEggs == EggMap(RedEgg) && greenEggs == EggMap(GreenEgg);
        assert blueEggs == EggMap(BlueEgg) && yellowEggs == EggMap(YellowEgg);
      }
    }

    /**
     * onMenuEntryAdded: with highlighting on and a Collector round shown,
     * when HighlightColor picks a colour, the last entry of the host's menu
     * gets the cleaned target painted in it; every other entry, and the
     * plugin, stay as they were. An empty menu throws at that point.
     */
    method OnMenuEntryAdded(highlightCollectorEggs: bool, calledEgg: Option<string>,
                            target: string, option: string, menuEntries: array<MenuEntry>)
      returns (outcome: Outcome)
      modifies menuEntries
      ensures !(highlightCollectorEggs && currentRound == Some(Round(Collector))) ==>
                outcome == Completed && menuEntries[..] == old(menuEntries[..])
      ensures highlightCollectorEggs && currentRound == Some(Round(Collector)) ==>
                match HighlightColor(calledEgg, target, option)
                case None =>
                  outcome == Completed && menuEntries[..] == old(menuEntries[..])
                case Some(color) =>
                  if menuEntries.Length == 0 then
                    outcome == Threw(ArrayIndexOutOfBounds)
                  else
                    var last := menuEntries.Length - 1;
                    && outcome == Completed
                    && menuEntries[..] == old(menuEntries[..])[last :=
                         old(menuEntries[last]).(target := PrependColorTag(Clean(target), color))]
    {
      if !highlightCollectorEggs {
        return Completed;
      }
      if currentRound.None? {
        return Completed;
      }
      if currentRound.value.roundRole != Collector {
        return Completed;
      }
      var targetClean := Clean(target);
      var highlightColor := HighlightColor(calledEgg, target, option);
      if highlightColor.Some? {
        if menuEntries.Length == 0 {
          return Threw(ArrayIndexOutOfBounds);
        }
        var last := menuEntries[menuEntries.Length - 1];
        menuEntries[menuEntries.Length - 1] := last.(target := PrependColorTag(targetClean, highlightColor.value));
      }
      outcome := Completed;
    }
  }

  /**
   * Two wave messages: wave 1 starts a timer, wave 2 keeps that timer and
   * moves its wave start.
   */
  method WaveScenario(tail: string)
    requires tail == "" || tail[0] == ' '
  {
    var plugin := new Plugin();
    WaveToken("1", tail);
    var outcome := plugin.OnChatMessage(GameMessage, "---- Wave: " + "1" + tail);
    assert outcome == Completed && plugin.currentWave == "1";
    assert plugin.gameTime == Some(GameTimer(0, 0));
    WaveToken("2", tail);
    outcome := plugin.OnChatMessage(GameMessage, "---- Wave: " + "2" + tail);
    assert plugin.currentWave == "2" && plugin.gameTime == Some(GameTimer(0, 1));
  }

  /** Leaving a wave inside the instance with a timer running: one announcement, the timer kept, the round gone. */
  method LeaveWaveScenario(plugin: Plugin)
    requires plugin.Valid() && plugin.inGameBit == 1 && plugin.gameTime.Some?
    modifies plugin
  {
    var before := plugin.announcements;
    plugin.OnVarbitChanged(0, true, true);
    assert plugin.announcements == before + [Announcement(WaveDurationText(plugin.currentWave), plugin.gameTime.value, true)];
    assert plugin.gameTime.Some? && plugin.currentRound == None;
  }
}
