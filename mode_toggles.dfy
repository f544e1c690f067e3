/** The two keyboard toggles of `keyPressed`: "D" switches the diagnostic
    mode, "S" the showcase (fullscreen) mode, and switching either one
    clears the other. `fullscreen` is the browser's fullscreen state, which
    `fullscreen()` reads and `fullscreen(b)` sets. */
module ModeToggles {

  datatype Modes = Modes(debugging: bool, showcase: bool, fullscreen: bool)

  /** The state the sketch starts in. */
  const Initial: Modes := Modes(false, false, false)

  predicate IsDebugKey(key: string) {
    key == "D" || key == "d"
  }

  predicate IsShowcaseKey(key: string) {
    key == "S" || key == "s"
  }

  /** At most one of the two modes is on. */
  predicate Exclusive(m: Modes) {
    !(m.debugging && m.showcase)
  }

  /** `keyPressed` for the key `key`. */
  function KeyPressed(m: Modes, key: string): (r: Modes)
    ensures IsDebugKey(key) ==>
      r.debugging == !m.debugging && !r.showcase && r.fullscreen == (m.fullscreen && !r.debugging)
    ensures IsShowcaseKey(key) ==>
      r.showcase == !m.showcase && !r.debugging && r.fullscreen == r.showcase
    ensures !IsDebugKey(key) && !IsShowcaseKey(key) ==> r == m
    ensures IsDebugKey(key) || IsShowcaseKey(key) ==> Exclusive(r)
  {
    if IsDebugKey(key) then
      var debugging := !m.debugging;
      var fullscreen := if debugging && m.fullscreen then false else m.fullscreen;
      Modes(debugging, false, fullscreen)
    else if IsShowcaseKey(key) then
      var showcase := !m.showcase;
      Modes(false, showcase, showcase)
    else
      m
  }

  /** The modes after a sequence of key presses. */
  function PressAll(m: Modes, keys: seq<string>): Modes
    decreases |keys|
  {
    if keys == [] then m else PressAll(KeyPressed(m, keys[0]), keys[1..])
  }

  /** Whatever keys are pressed, the two modes are never on together. */
  lemma {:induction false} PressAllExclusive(m: Modes, keys: seq<string>)
    requires Exclusive(m)
    ensures Exclusive(PressAll(m, keys))
    decreases |keys|
  {
    if keys != [] {
      PressAllExclusive(KeyPressed(m, keys[0]), keys[1..]);
    }
  }

  /** In showcase mode the display is fullscreen, from any reachable state:
      showcase is only switched on together with fullscreen, and no other
      key switches fullscreen on. */
  ghost predicate ShowcaseIsFullscreen(m: Modes) {
    m.showcase ==> m.fullscreen
  }

  lemma {:induction false} PressAllShowcaseFullscreen(m: Modes, keys: seq<string>)
    requires ShowcaseIsFullscreen(m)
    ensures ShowcaseIsFullscreen(PressAll(m, keys))
    decreases |keys|
  {
    if keys != [] {
      PressAllShowcaseFullscreen(KeyPressed(m, keys[0]), keys[1..]);
    }
  }

  /** Pressing "S" twice leaves showcase mode as it was, with debugging off. */
  lemma ShowcaseTwice(m: Modes)
    ensures var r := KeyPressed(KeyPressed(m, "s"), "S");
      r.showcase == m.showcase && !r.debugging && r.fullscreen == m.showcase
  {
  }

  /** Pressing "D" twice leaves debugging mode as it was and showcase off. */
  lemma DebugTwice(m: Modes)
    ensures var r := KeyPressed(KeyPressed(m, "d"), "D");
      r.debugging == m.debugging && !r.showcase
  {
  }
}
