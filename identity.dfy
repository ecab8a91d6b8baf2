/** The character identity tracker of the data reader: characters keyed by
    player name, the three reset rules, the "character created" event and the
    autosplit (most recently created) character. Every `new Character()` of the
    reader is given the next serial number, which stands for object identity. */
module CharacterIdentity {
  import opened Wrappers

  /** A tracked character. Level and experience are what the stat parser last
      stored in it; a new character starts with both at 0. */
  datatype Character = Character(serial: nat, name: string, level: int, experience: int)

  /** The reader's identity state: the `characters` dictionary, the
      `wasInTitleScreen` flag, the serial of `activeCharacter` and the next
      serial to hand out. */
  datatype Tracker = Tracker(
    characters: map<string, Character>,
    wasInTitleScreen: bool,
    active: Option<nat>,
    nextSerial: nat)

  /** The tracker of a freshly constructed reader. */
  const InitialTracker: Tracker := Tracker(map[], false, None, 0)

  /** Every entry is filed under its own name, entries are distinct objects,
      and all handed-out serials lie below `nextSerial`. */
  ghost predicate Valid(t: Tracker) {
    (forall n :: n in t.characters ==> t.characters[n].name == n && t.characters[n].serial < t.nextSerial) &&
    (forall n, m :: n in t.characters && m in t.characters && n != m ==>
       t.characters[n].serial != t.characters[m].serial) &&
    (t.active.Some? ==> t.active.value < t.nextSerial)
  }

  /** The three reset rules for a name seen before: back from the title screen
      with no experience; experience lost at level 1; level lost. */
  predicate IsReset(stored: Character, wasInTitleScreen: bool, level: int, experience: int) {
    (wasInTitleScreen && experience == 0) ||
    (stored.level == 1 && experience < stored.experience) ||
    level < stored.level
  }

  /** A brand-new character: level 1 and no experience. */
  predicate IsBrandNew(level: int, experience: int) {
    experience == 0 && level == 1
  }

  datatype Identified = Identified(tracker: Tracker, current: Character, created: bool)

  /** `GetCurrentCharacter`: find the character stored under `name`, replacing
      it by a new one when a reset is detected, creating one when there is
      none; a brand-new one becomes the active character and raises
      "character created". The title-screen flag is cleared. */
  function GetCurrentCharacter(t: Tracker, name: string, level: int, experience: int): (r: Identified)
    ensures r.tracker.characters == t.characters[name := r.current]
    ensures r.tracker.wasInTitleScreen == false
    // An existing entry survives exactly when no reset rule fires.
    ensures name in t.characters && !IsReset(t.characters[name], t.wasInTitleScreen, level, experience) ==>
              r.current == t.characters[name] && !r.created &&
              r.tracker.active == t.active && r.tracker.nextSerial == t.nextSerial
    // Otherwise a new entry is made, and it is "created" exactly when brand new.
    ensures name !in t.characters || IsReset(t.characters[name], t.wasInTitleScreen, level, experience) ==>
              r.current == Character(t.nextSerial, name, 0, 0) && r.tracker.nextSerial == t.nextSerial + 1 &&
              r.created == IsBrandNew(level, experience) &&
              r.tracker.active == (if r.created then Some(t.nextSerial) else t.active)
    ensures Valid(t) ==> Valid(r.tracker)
  {
    var existing :=
      if name in t.characters && !IsReset(t.characters[name], t.wasInTitleScreen, level, experience)
      then Some(t.characters[name]) else None;
    match existing
    case Some(c) =>
      Identified(t.(wasInTitleScreen := false), c, false)
    case None =>
      var c := Character(t.nextSerial, name, 0, 0);
      var created := IsBrandNew(level, experience);
      var active := if created then Some(c.serial) else t.active;
      Identified(Tracker(t.characters[name := c], false, active, t.nextSerial + 1), c, created)
  }

  /** `IsAutosplitCharacter`: is `c` the active character? */
  predicate IsAutosplitCharacter(t: Tracker, c: Character) {
    t.active == Some(c.serial)
  }

  /** The stat parser's effect on the identity state: the current character's
      level and experience become the values just read. */
  function StoreStats(t: Tracker, name: string, level: int, experience: int): (r: Tracker)
    requires name in t.characters
    ensures r.characters.Keys == t.characters.Keys
    ensures r.characters[name].serial == t.characters[name].serial
    ensures r.characters[name].level == level && r.characters[name].experience == experience
    ensures forall n :: n in t.characters && n != name ==> r.characters[n] == t.characters[n]
    ensures Valid(t) ==> Valid(r)
  {
    t.(characters := t.characters[name := t.characters[name].(level := level, experience := experience)])
  }

  /** The title screen: no game info this tick. */
  function EnterTitleScreen(t: Tracker): (r: Tracker)
    ensures r.wasInTitleScreen && r.characters == t.characters && r.active == t.active
  {
    t.(wasInTitleScreen := true)
  }

  /** What one tick shows the tracker. */
  datatype Observation = TitleScreen | InGame(name: string, level: int, experience: int)

  /** The identity part of one tick (`ProcessGameData`): the title screen sets
      the flag; in game, the character is resolved and its stats stored. The
      result carries the "character created" event, if one fired. */
  function Tick(t: Tracker, o: Observation): (Tracker, Option<Character>) {
    match o
    case TitleScreen => (EnterTitleScreen(t), None)
    case InGame(name, level, experience) =>
      var r := GetCurrentCharacter(t, name, level, experience);
      (StoreStats(r.tracker, name, level, experience), if r.created then Some(r.current) else None)
  }

  /** The "character created" event of a tick, as a list of zero or one. */
  function EventOf(t: Tracker, o: Observation): seq<Character> {
    var e := Tick(t, o).1;
    if e.Some? then [e.value] else []
  }

  /** The ticks of a run, left to right: the final tracker. */
  function Final(t: Tracker, obs: seq<Observation>): Tracker
    decreases |obs|
  {
    if obs == [] then t else Final(Tick(t, obs[0]).0, obs[1..])
  }

  /** Every "character created" event of a run, in order. */
  function Events(t: Tracker, obs: seq<Observation>): seq<Character>
    decreases |obs|
  {
    if obs == [] then [] else EventOf(t, obs[0]) + Events(Tick(t, obs[0]).0, obs[1..])
  }

  /** A run keeps the tracker valid. */
  lemma {:induction false} RunValid(t: Tracker, obs: seq<Observation>)
    requires Valid(t)
    ensures Valid(Final(t, obs))
    decreases |obs|
  {
    if obs != [] {
      RunValid(Tick(t, obs[0]).0, obs[1..]);
    }
  }

  /** The active character is the target of the most recent "character
      created" event of a run, and is left alone by a run without one. */
  lemma {:induction false} ActiveIsLastCreated(t: Tracker, obs: seq<Observation>)
    ensures var events := Events(t, obs);
            if events == [] then Final(t, obs).active == t.active
            else Final(t, obs).active == Some(events[|events| - 1].serial)
    decreases |obs|
  {
    if obs != [] {
      ActiveIsLastCreated(Tick(t, obs[0]).0, obs[1..]);
    }
  }

  /** Every event of a run is a brand-new character, created with a serial
      never handed out before, the serials strictly increasing. */
  lemma {:induction false} CreatedAreFresh(t: Tracker, obs: seq<Observation>)
    ensures forall i :: 0 <= i < |Events(t, obs)| ==>
              t.nextSerial <= Events(t, obs)[i].serial < Final(t, obs).nextSerial &&
              Events(t, obs)[i].level == 0 && Events(t, obs)[i].experience == 0
    ensures forall i, j :: 0 <= i < j < |Events(t, obs)| ==> Events(t, obs)[i].serial < Events(t, obs)[j].serial
    ensures t.nextSerial <= Final(t, obs).nextSerial
    decreases |obs|
  {
    if obs != [] {
      var t1 := Tick(t, obs[0]).0;
      CreatedAreFresh(t1, obs[1..]);
      assert forall c :: c in EventOf(t, obs[0]) ==> t.nextSerial == c.serial < t1.nextSerial;
    }
  }

  /** Only the character just created is autosplit: a character resolved
      without an event is autosplit only if it already was. */
  lemma ResolvedWithoutEventKeepsAutosplit(t: Tracker, name: string, level: int, experience: int)
    requires Valid(t)
    ensures var r := GetCurrentCharacter(t, name, level, experience);
            r.created ==> IsAutosplitCharacter(r.tracker, r.current)
    ensures var r := GetCurrentCharacter(t, name, level, experience);
            !r.created ==> (IsAutosplitCharacter(r.tracker, r.current) <==>
                            name in t.characters && r.current == t.characters[name] &&
                            IsAutosplitCharacter(t, t.characters[name]))
  {
  }

  /** A run over `a + b` is the run over `a` followed by the run over `b`. */
  lemma {:induction false} RunAppend(t: Tracker, a: seq<Observation>, b: seq<Observation>)
    ensures Final(t, a + b) == Final(Final(t, a), b)
    ensures Events(t, a + b) == Events(t, a) + Events(Final(t, a), b)
    decreases |a|
  {
    if a == [] {
      assert a + b == b;
    } else {
      assert (a + b)[1..] == a[1..] + b;
      RunAppend(Tick(t, a[0]).0, a[1..], b);
    }
  }

  /** A run of one tick. */
  lemma RunOne(t: Tracker, o: Observation)
    ensures Final(t, [o]) == Tick(t, o).0 && Events(t, [o]) == EventOf(t, o)
  {
    assert [o][1..] == [];
  }

  /** Level 1 with no experience, then level 2 with 500, then level 1 with no
      experience: the level drop is a reset and two characters are created,
      on the first and the third tick; the second reads the first one. */
  lemma CreateProgressReset()
    ensures var hero := InGame("Hero", 1, 0);
            var obs := [hero, InGame("Hero", 2, 500), hero];
            var events := Events(InitialTracker, obs);
            |events| == 2 && events[0].serial == 0 && events[1].serial == 1 &&
            Final(InitialTracker, obs).characters["Hero"] == Character(1, "Hero", 1, 0) &&
            Final(InitialTracker, obs).active == Some(1)
  {
    var hero, grown := InGame("Hero", 1, 0), InGame("Hero", 2, 500);
    var t0 := InitialTracker;
    var t1 := Tracker(map["Hero" := Character(0, "Hero", 1, 0)], false, Some(0), 1);
    var t2 := Tracker(map["Hero" := Character(0, "Hero", 2, 500)], false, Some(0), 1);
    var t3 := Tracker(map["Hero" := Character(1, "Hero", 1, 0)], false, Some(1), 2);
    FirstTick();
    SecondTick();
    ThirdTick();
    var obs := [hero, grown, hero];
    RunOne(t0, hero);
    RunOne(t1, grown);
    RunOne(t2, hero);
    RunAppend(t0, [hero], [grown]);
    assert [hero] + [grown] == [hero, grown];
    RunAppend(t0, [hero, grown], [hero]);
    assert [hero, grown] + [hero] == obs;
  }

  lemma FirstTick()
    ensures Tick(InitialTracker, InGame("Hero", 1, 0)) ==
            (Tracker(map["Hero" := Character(0, "Hero", 1, 0)], false, Some(0), 1), Some(Character(0, "Hero", 0, 0)))
  {
    var empty: map<string, Character> := map[];
    assert empty["Hero" := Character(0, "Hero", 0, 0)]["Hero" := Character(0, "Hero", 1, 0)] ==
           map["Hero" := Character(0, "Hero", 1, 0)];
  }

  lemma SecondTick()
    ensures var t1 := Tracker(map["Hero" := Character(0, "Hero", 1, 0)], false, Some(0), 1);
            Tick(t1, InGame("Hero", 2, 500)) ==
            (Tracker(map["Hero" := Character(0, "Hero", 2, 500)], false, Some(0), 1), None)
  {
    var t1 := Tracker(map["Hero" := Character(0, "Hero", 1, 0)], false, Some(0), 1);
    assert !IsReset(t1.characters["Hero"], false, 2, 500);
    assert map["Hero" := Character(0, "Hero", 1, 0)]["Hero" := Character(0, "Hero", 2, 500)] ==
           map["Hero" := Character(0, "Hero", 2, 500)];
  }

  lemma ThirdTick()
    ensures var t2 := Tracker(map["Hero" := Character(0, "Hero", 2, 500)], false, Some(0), 1);
            Tick(t2, InGame("Hero", 1, 0)) ==
            (Tracker(map["Hero" := Character(1, "Hero", 1, 0)], false, Some(1), 2), Some(Character(1, "Hero", 0, 0)))
  {
    var t2 := Tracker(map["Hero" := Character(0, "Hero", 2, 500)], false, Some(0), 1);
    // The level fell from 2 to 1: a reset.
    assert IsReset(t2.characters["Hero"], false, 1, 0);
    assert map["Hero" := Character(0, "Hero", 2, 500)]["Hero" := Character(1, "Hero", 0, 0)]["Hero" := Character(1, "Hero", 1, 0)] ==
           map["Hero" := Character(1, "Hero", 1, 0)];
  }

  /** Three ticks at the title screen, then a level-1 character with no
      experience: one event on the fourth tick, and that character is the
      autosplit character. */
  lemma TitleScreenThenNewCharacter()
    ensures var obs := [TitleScreen, TitleScreen, TitleScreen, InGame("Hero", 1, 0)];
            |Events(InitialTracker, obs)| == 1 && Events(InitialTracker, obs[..3]) == [] &&
            IsAutosplitCharacter(Final(InitialTracker, obs), Final(InitialTracker, obs).characters["Hero"])
  {
    var hero := InGame("Hero", 1, 0);
    var obs := [TitleScreen, TitleScreen, TitleScreen, hero];
    var t0 := InitialTracker;
    var t1 := t0.(wasInTitleScreen := true);
    RunOne(t0, TitleScreen);
    RunOne(t1, TitleScreen);
    RunAppend(t0, [TitleScreen], [TitleScreen]);
    assert [TitleScreen] + [TitleScreen] == [TitleScreen, TitleScreen];
    RunAppend(t0, [TitleScreen, TitleScreen], [TitleScreen]);
    assert [TitleScreen, TitleScreen] + [TitleScreen] == obs[..3];
    assert Final(t0, obs[..3]) == t1 && Events(t0, obs[..3]) == [];
    RunOne(t1, hero);
    assert EventOf(t1, hero) == [Character(0, "Hero", 0, 0)];
    RunAppend(t0, obs[..3], [hero]);
    assert obs[..3] + [hero] == obs;
  }
}
