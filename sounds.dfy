/**
 * The sound cue dispatcher of lib/sounds.ts: a lazily created, process-wide
 * SoundManager holding an enabled flag and a fixed table of named cues.
 * The browser's audio element is abstracted to its playback position, the
 * outcome of the last play request and the number of play requests made.
 */
module Sounds {

  /**
   * An abstract `HTMLAudioElement`: its source, its `currentTime`, whether
   * the last `play()` request was accepted (a request refused by the
   * browser's autoplay policy leaves it not playing), and how many play
   * requests it has received.
   */
  datatype Audio = Audio(src: string, currentTime: real, playing: bool, playRequests: nat)

  /** The names registered by `initSounds`. */
  const CueNames: set<string> :=
    {"open", "close", "minimize", "maximize", "restore", "error", "click"}

  /** A freshly loaded element for a sound file. */
  function Loaded(src: string): (a: Audio)
    ensures a.src == src && a.currentTime == 0.0 && !a.playing && a.playRequests == 0
  {
    Audio(src, 0.0, false, 0)
  }

  /** The cue table built by `initSounds`: exactly the seven names, each freshly loaded. */
  function CueTable(): (t: map<string, Audio>)
    ensures t.Keys == CueNames
    ensures forall c :: c in t ==> t[c] == Loaded(t[c].src)
    ensures t["open"].src == "/sounds/WindowOpen.mp3" && t["close"].src == "/sounds/WindowClose.mp3"
    ensures t["minimize"].src == "/sounds/WindowMinimize.mp3" && t["maximize"].src == "/sounds/WindowMaximize.mp3"
    ensures t["restore"].src == "/sounds/restore.mp3" && t["error"].src == "/sounds/error.mp3"
    ensures t["click"].src == "/sounds/click.mp3"
  {
    map[
      "open" := Loaded("/sounds/WindowOpen.mp3"),
      "close" := Loaded("/sounds/WindowClose.mp3"),
      "minimize" := Loaded("/sounds/WindowMinimize.mp3"),
      "maximize" := Loaded("/sounds/WindowMaximize.mp3"),
      "restore" := Loaded("/sounds/restore.mp3"),
      "error" := Loaded("/sounds/error.mp3"),
      "click" := Loaded("/sounds/click.mp3")
    ]
  }

  /**
   * One element after `currentTime = 0` and `play()`: rewound, one more
   * request, and playing exactly when the browser accepted the request.
   * A refusal is swallowed: it changes nothing else.
   */
  function Rewound(a: Audio, accepted: bool): (r: Audio)
    ensures r.src == a.src && r.currentTime == 0.0
    ensures r.playRequests == a.playRequests + 1
    ensures r.playing <==> accepted
  {
    a.(currentTime := 0.0, playing := accepted, playRequests := a.playRequests + 1)
  }

  class SoundManager {
    var sounds: map<string, Audio>
    var enabled: bool

    /** The table keeps its seven names and their sources for the whole lifetime. */
    ghost predicate Valid()
      reads this
    {
      && sounds.Keys == CueNames
      && forall c :: c in sounds ==> sounds[c].src == CueTable()[c].src
    }

    /** The private constructor: enabled, with the cue table freshly built. */
    constructor ()
      ensures Valid()
      ensures enabled && sounds == CueTable()
    {
      enabled := true;
      sounds := CueTable();
    }

    /**
     * `play(soundName)`: nothing happens while disabled or for an unknown
     * name; otherwise that one cue is rewound and started. `accepted` is the
     * browser's answer to the play request, which the source ignores.
     */
    method Play(soundName: string, accepted: bool)
      requires Valid()
      modifies this
      ensures Valid()
      ensures enabled == old(enabled)
      ensures !old(enabled) || soundName !in old(sounds) ==> sounds == old(sounds)
      ensures old(enabled) && soundName in old(sounds) ==>
        && sounds.Keys == old(sounds).Keys
        && sounds[soundName] == Rewound(old(sounds)[soundName], accepted)
        && forall c :: c in sounds && c != soundName ==> sounds[c] == old(sounds)[c]
    {
      if !enabled {
        return;
      }
      if soundName in sounds {
        var sound := sounds[soundName];
        sounds := sounds[soundName := Rewound(sound, accepted)];
      }
    }

    /** `toggle()`: flips the flag and touches no cue. */
    method Toggle()
      requires Valid()
      modifies this
      ensures Valid()
      ensures enabled == !old(enabled) && sounds == old(sounds)
    {
      enabled := !enabled;
    }

    /** `isEnabled()`: the current flag. */
    method IsEnabled() returns (b: bool)
      ensures b == enabled
    {
      b := enabled;
    }
  }

  /** Two toggles give back the original flag, and the cues are untouched. */
  method ToggleTwice(m: SoundManager)
    requires m.Valid()
    modifies m
    ensures m.Valid()
    ensures m.enabled == old(m.enabled) && m.sounds == old(m.sounds)
  {
    m.Toggle();
    m.Toggle();
  }

  /**
   * The static side of the class: `SoundManager.instance`, empty until the
   * first `getInstance()` call.
   */
  class SoundModule {
    var instance: SoundManager?

    ghost predicate Valid()
      reads this, instance
    {
      instance != null ==> instance.Valid()
    }

    constructor ()
      ensures Valid() && instance == null
    {
      instance := null;
    }

    /**
     * `getInstance()`: constructs a manager only when none exists yet, and
     * afterwards always returns that same one.
     */
    method GetInstance() returns (m: SoundManager)
      requires Valid()
      modifies this
      ensures Valid() && instance == m && m.Valid()
      ensures old(instance) != null ==> m == old(instance)
      ensures old(instance) == null ==> fresh(m) && m.enabled && m.sounds == CueTable()
    {
      if instance == null {
        instance := new SoundManager();
      }
      m := instance;
    }
  }

  /** Every call of `getInstance()` yields the one manager made by the first call. */
  method SameInstance(statics: SoundModule) returns (a: SoundManager, b: SoundManager)
    requires statics.Valid()
    modifies statics
    ensures a == b && statics.instance == a
    ensures old(statics.instance) == null ==> fresh(a) && a.enabled
  {
    a := statics.GetInstance();
    b := statics.GetInstance();
  }
}
