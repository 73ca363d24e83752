# Barbarian Assault plugin — a Dafny model

This project models the core of the RuneLite Barbarian Assault plugin
(`BarbarianAssaultPlugin.java`). The plugin is one long-lived object. Its
event handlers do four things:

- keep a game timer and the current wave's token, driven by the wave-start
  chat messages and by the in-game variable;
- announce wave and game durations to chat;
- track the role of the round the overlay shows;
- count, per egg colour, how many eggs have spawned on each world tile.

For a Collector, they also paint the "Take" menu entries of the called egg
colour (and of yellow eggs, which are always safe to take).

Layout:

- `wrappers.dfy`: `Option`, which stands for a Java reference that may be null.
- `java_string.dfy`: the `java.lang.String` operations the handlers use.
  - `indexOf(char)` and `substring(indexOf + 1)`.
  - `startsWith` and `contains`.
  - `split(" ")`: cutting at every space, then dropping trailing empty
    strings.
  - Lemmas that cut and glue strings at spaces.
- `egg_tables.dfy`: the fixed lookup tables.
  - Egg item ids.
  - `getEggColor`, and the colour switches of `getEggMap` and
    `getCalledEggMap`.
  - `isEgg` and `getListenItemId`.
- `egg_tracker.dfy`: one colour's tile-to-count map and the update made when
  an egg spawns, with a lemma about any series of spawns.
- `menu_highlight.dfy`: the pure half of `onMenuEntryAdded`.
  - Cleaning a colour-tagged label.
  - The highlight decision.
  - The colour tag that is put in front of the label.
- `wave_message.dfy`: the shape of a wave-start chat message, and which of
  its words becomes the wave token.
- `plugin.dfy`: the class `Plugin`.
  - Its fields are the plugin's state.
  - Its methods are the event handlers, each proved against a contract
    that states its whole new state.
  - Two client methods chain handlers.

Two Java behaviours are modelled explicitly as the result
`Outcome = Completed | Threw(ArrayIndexOutOfBounds)`, with the plugin left
unchanged:

- `onChatMessage` reads word 2 of a message that has fewer than three words;
- `onMenuEntryAdded` indexes an empty menu.

The host's inputs become handler parameters: configuration switches,
widget texts, the in-game variable, the instanced-region test and the menu
entry array.

Two behaviours of the code are worth stating outright:

- `shutDown` resets the timer, the wave and the in-game bit. It does not
  clear the egg maps or the overlay round.
- Leaving a wave (the in-game bit going from 1 to something else) announces
  the wave time. It does not discard the timer.

## Model

| member | source | states |
|---|---|---|
| JavaString.IndexOf | BarbarianAssaultPlugin.java:323-324 | `indexOf` is -1 exactly when the character is absent; otherwise it is a position holding that character |
| JavaString.IndexOfFirst | BarbarianAssaultPlugin.java:323-324 | no earlier position holds the character, so the position reported is the first one |
| JavaString.IndexOfPrefixed | BarbarianAssaultPlugin.java:323-324 | in `p + c + rest` with no `c` in `p`, `indexOf(c)` is `|p|` |
| JavaString.AfterFirst | BarbarianAssaultPlugin.java:323-324 | `substring(indexOf(c) + 1)` is the whole string when `c` is absent; otherwise it is the strictly shorter suffix after the first `c`, and the string is that prefix, `c` and the suffix |
| JavaString.AfterFirstOfPrefixed | BarbarianAssaultPlugin.java:323-324 | cutting `p + c + rest` at its first `c` gives back exactly `rest` |
| JavaString.ContainsOccurs | BarbarianAssaultPlugin.java:195 | the left-to-right scan used for `contains` holds exactly when the needle occurs at some position |
| JavaString.Pieces | BarbarianAssaultPlugin.java:232 | cutting at every space yields at least one piece |
| JavaString.PiecesSpaceFree | BarbarianAssaultPlugin.java:232 | no piece holds a space |
| JavaString.JoinPieces | BarbarianAssaultPlugin.java:232 | the pieces joined with single spaces give back the original string |
| JavaString.PiecesJoin | BarbarianAssaultPlugin.java:232 | space-free words joined with spaces are cut back into the same words (the other round trip) |
| JavaString.PiecesCons | BarbarianAssaultPlugin.java:232 | a space-free word followed by a space becomes the first piece, and the rest is cut independently |
| JavaString.PiecesTwoCons | BarbarianAssaultPlugin.java:232 | two space-free words, each followed by a space, become the first two pieces |
| JavaString.TwoWords | BarbarianAssaultPlugin.java:232 | two space-free words around one space are cut into exactly those two |
| JavaString.PiecesHead | BarbarianAssaultPlugin.java:232 | a space-free word that ends the string or is followed by a space is the first piece |
| JavaString.SplitKeepsPiece | BarbarianAssaultPlugin.java:232-233 | `split(" ")` keeps every piece up to and including a non-empty one, so indexing it there succeeds |
| JavaString.DropTrailingEmpty | BarbarianAssaultPlugin.java:232 | the result is a prefix of the pieces that does not end in an empty string, and every dropped piece is empty |
| JavaString.Split | BarbarianAssaultPlugin.java:232 | `split(" ")` gives `[s]` for a string without a space. Otherwise it gives the pieces with the trailing empty ones removed, and no element holds a space |
| EggTables.EggColorOf | BarbarianAssaultPlugin.java:432-447 | the switch of `getEggMap` selects colour `c` exactly for `c`'s egg item, and nothing for any other item |
| EggTables.IsEgg | BarbarianAssaultPlugin.java:465-473 | `isEgg` holds exactly when the id is one of the four egg items, which is exactly when `getEggMap` selects a map |
| EggTables.GetEggColor | BarbarianAssaultPlugin.java:399-430 | null gives null. A string starting with a colour word gives that colour's display colour, with blue shown as cyan. A non-null result always comes from such a prefix |
| EggTables.ColorWordsExclusive | BarbarianAssaultPlugin.java:408-424 | a string starts with at most one colour word, so the order of the if-chain never matters |
| EggTables.EggNameColor | BarbarianAssaultPlugin.java:399-430 | an egg's own item name gets that egg's display colour |
| EggTables.CalledEggColor | BarbarianAssaultPlugin.java:381-396 | exactly the calls "Red eggs", "Green eggs" and "Blue eggs" select a colour (their own); "Yellow eggs", null and any other text select none |
| EggTables.CallTextsDistinct | BarbarianAssaultPlugin.java:381-396 | the four call texts differ from each other |
| EggTables.GetListenItemId | BarbarianAssaultPlugin.java:496-520 | each of the six Healer calls gives its item; the result is -1 exactly when the widget is absent or its text is none of the six |
| EggTables.ListenTextsDistinct | BarbarianAssaultPlugin.java:503-515 | the six call texts differ from each other, so each case label is reached by its own text only |
| EggTables.ListenItemsDistinct | BarbarianAssaultPlugin.java:496-520 | different calls give different items, so the item identifies the call |
| EggTracker.Recorded | BarbarianAssaultPlugin.java:295-299 | recording a spawn adds the tile as a key and raises its count by one (an absent tile starts at 1). Every other count stays the same, and all counts stay positive |
| EggTracker.RecordedAllCounts | BarbarianAssaultPlugin.java:288-301 | after any series of spawns, the count at a tile is its old count plus the number of those spawns on it |
| EggTracker.SpawnsCountedFromEmpty | BarbarianAssaultPlugin.java:162-171 | from the maps `startUp` creates, the count at a tile is the number of spawns seen there |
| MenuHighlight.CleanPainted | BarbarianAssaultPlugin.java:323-344 | cleaning a label that has just been painted gives back the label |
| MenuHighlight.HighlightColor | BarbarianAssaultPlugin.java:326-338 | a colour is chosen only when the cleaned option is "Take". It is then `getEggColor` of the cleaned target, and either the call starts with that target or the target is "Yellow egg". Conversely, a "Take" whose call starts with the cleaned target gets `getEggColor` of that target, and a "Take" on a yellow egg is always painted yellow |
| MenuHighlight.CallStartsWithEggName | BarbarianAssaultPlugin.java:330 | the call for colour `c` starts with the name of egg `d` exactly when `c == d` |
| MenuHighlight.HighlightFollowsCall | BarbarianAssaultPlugin.java:320-338 | with colour `c` called and a "Take" entry whose target cleans to the name of egg `d`, tagged or not: `d == c` is painted in its own colour, a yellow egg is painted yellow, and any other egg is left alone |
| MenuHighlight.NoCallOnlyYellow | BarbarianAssaultPlugin.java:330-338 | with no call heard, exactly the "Take" entries of yellow eggs are painted |
| MenuHighlight.RepaintSameColor | BarbarianAssaultPlugin.java:323-344 | a painted target seen again leads to the same decision, so repainting never changes the colour |
| WaveMessage.WaveToken | BarbarianAssaultPlugin.java:229-233 | "---- Wave: w ..." passes the prefix test and splits into at least three words, the third being `w` |
| WaveMessage.WaveMessageWords | BarbarianAssaultPlugin.java:230 | every "---- Wave: ..." message passes the prefix test and consists of the words "----" and "Wave:", each followed by a space |
| WaveMessage.ThirdWord | BarbarianAssaultPlugin.java:232-233 | a third word that ends the string or is followed by a space is element 2 of `split(" ")` |
| WaveMessage.WaveTokenMissing | BarbarianAssaultPlugin.java:229-233 | a message "---- Wave:..." with no further space has only two words, so reading index 2 throws |
| BarbarianAssault.RoleOfGroup | BarbarianAssaultPlugin.java:202-221 | each of the four role widget groups selects its own role, and no other group (the reward group included) selects one |
| BarbarianAssault.Plugin.GetEggMap | BarbarianAssaultPlugin.java:432-447 | the result is non-null exactly for egg items, and for colour `c`'s egg it is `c`'s map |
| BarbarianAssault.Plugin.GetCalledEggMap | BarbarianAssaultPlugin.java:371-397 | the result is non-null exactly for the red, green and blue calls, and it is that colour's map |
| BarbarianAssault.Plugin.constructor | BarbarianAssaultPlugin.java:91-108 | the field initialisers (in-game bit 0, wave "1", no timer), no round shown, no announcements yet, plus `startUp`'s empty egg maps, which is the state the handlers first see |
| BarbarianAssault.Plugin.StartUp | BarbarianAssaultPlugin.java:162-171 | all four egg maps are empty; nothing else changes |
| BarbarianAssault.Plugin.ShutDown | BarbarianAssaultPlugin.java:174-184 | the timer is dropped, the wave is "1" and the in-game bit is 0. The round and the egg maps are unchanged |
| BarbarianAssault.Plugin.SetOverlayRound | BarbarianAssaultPlugin.java:273-284 | a round already shown is kept; otherwise a round of the given role is shown |
| BarbarianAssault.Plugin.OnWidgetLoaded | BarbarianAssaultPlugin.java:186-223 | The reward screen ends a game with one "Game finished" announcement and no timer. That needs wave times on, the reward text present and containing "<br>5", and a running timer; otherwise the timer and the announcements are unchanged. A role screen behaves as `setOverlayRound` of its role. Other groups change nothing |
| BarbarianAssault.Plugin.OnChatMessage | BarbarianAssaultPlugin.java:227-243 | Only a game message starting "---- Wave:" has an effect: it throws without change below three words. Otherwise the wave becomes word 2. Wave "1" installs a fresh timer; any other wave resets a running timer's wave start and leaves an absent timer absent |
| BarbarianAssault.Plugin.OnVarbitChanged | BarbarianAssaultPlugin.java:248-272 | the stored bit becomes the new value. Only a change away from 1 clears the round. That change adds exactly one "Wave w duration: " announcement, when wave times are on, a timer runs and the player is in an instance. The timer is never changed |
| BarbarianAssault.Plugin.SetEggMap | BarbarianAssaultPlugin.java:292-299 | one colour's map is replaced and nothing else changes |
| BarbarianAssault.Plugin.OnItemSpawned | BarbarianAssaultPlugin.java:288-301 | an egg spawn records the tile in its own colour's map only; every other map and field is unchanged, and counts stay positive. A non-egg item changes nothing |
| BarbarianAssault.Plugin.OnMenuEntryAdded | BarbarianAssaultPlugin.java:305-348 | With highlighting off, or the round not a Collector's, nothing changes. When a colour is chosen, the last entry's target becomes the cleaned target painted in it; every other entry and the length stay the same. An empty menu throws |

## Left out

- Overlay registration, the font, the clock image and `getFont`/`getClockImage`: these are display only.
- The text of announcements: `announceTime` and `announceSomething` build and queue a chat message through host classes. An announcement is modelled only as a record in the ghost list `announcements`, holding its leading text, the timer read and `getTime`'s argument. The formatted time is not modelled.
- `GameTimer`: its class is not part of this model and it reads the wall clock. A timer is modelled as the number of the start that created it plus the number of wave-start resets since then. The meaning of `getTime(false)` and `getTime(true)` is not modelled beyond recording which one was used.
- `Client` lookups become handler parameters: `getWidget`, `getVar`, `isInInstancedRegion`, `getMenuEntries` and `setMenuEntries`. `getCollectorHeardCall` becomes the `calledEgg` parameter, and `getListenItemId` takes the widget's text (null for an absent widget).
- `isUnderPlayer`: it depends on the host's player lookup, and nothing in the file calls it.
- The counters `collectedEggCount`, `positiveEggCount`, `wrongEggs` and `HpHealed` are not modelled: nothing in the file increments them, and `shutDown` only zeroes them. `totalCollectedEggCount` and `totalHpHealed` are not modelled either: nothing writes them after their initialisers.
- `hasAnnounced` is not modelled: it is written and never read. The `WIDGETS` and `POINTSWIDGETS` lists and the `game` and `wave` fields are unused.
- Dependency injection, the event bus and `provideConfig` are not modelled: they are framework plumbing.
- `ColorUtil` and `java.awt.Color` are not part of this model. `PrependColorTag` is taken to be `"<col=" + hex + ">" + text`, with the RGB hex codes of red, green, cyan and yellow. The proofs use only that the tag holds no `'>'` before its last character.
- `ItemID` and `WidgetID` are not part of this model. The egg, food and widget group ids are the host's values, and the proofs use only that they are distinct.
- BarbarianAssault.Plugin.OnItemSpawned: egg counts are unbounded integers; Java's `Integer` wrap-around after 2147483647 spawns on one tile is not modelled.
- BarbarianAssault.Plugin.OnMenuEntryAdded: menu entries are values in the array. The Java code changes the `MenuEntry` object in place, so any other reference to it is not modelled. The host's copy that `setMenuEntries` hands the array back to is not modelled either.
- A present widget's text is taken to be non-null: `getText()` returning null would throw at `contains` (BarbarianAssaultPlugin.java:195) and at the `switch` (BarbarianAssaultPlugin.java:502), and neither throw is modelled. Only an absent widget is modelled, as `None`.
- Strings are sequences of characters with no encoding; `split(" ")` is modelled for the single-space pattern only, which is the only one used.
