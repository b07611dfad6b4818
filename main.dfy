/**
  The home page's script: per-card hover styles, tilt and idle animations, the
  navigation bar and mobile menu, the section reveal on scroll, and the two
  page-level hooks into the scene (tab visibility and the debug key).
 */
module Page {
  import opened Wrappers
  import opened Text
  import opened Geometry
  import Scene
  import Animations

  /** How many hover styles `cardAnimations` defines. */
  const HoverStyleCount: nat := 4

  /** The hover style card `index` uses: the styles repeat every four cards. */
  function HoverStyle(index: nat): (style: nat)
    ensures style < HoverStyleCount
    ensures index < HoverStyleCount ==> style == index
  {
    index % HoverStyleCount
  }

  /** The idle keyframes card `index` runs: `cardFloat0` to `cardFloat3`, repeating every four cards. */
  function IdleKeyframes(index: nat): (name: string)
    ensures |name| == 10 && name[..9] == "cardFloat"
  {
    "cardFloat" + Decimal(index % HoverStyleCount)
  }

  /** Cards four apart get the same hover style and the same idle keyframes. */
  lemma CardsFourApartAlike(index: nat)
    ensures HoverStyle(index + HoverStyleCount) == HoverStyle(index)
    ensures IdleKeyframes(index + HoverStyleCount) == IdleKeyframes(index)
  {
    assert (index + HoverStyleCount) % HoverStyleCount == index % HoverStyleCount;
  }

  /** The idle keyframe names are exactly the four `cardFloat0`..`cardFloat3`. */
  lemma IdleKeyframeNames(index: nat)
    ensures IdleKeyframes(index) in ["cardFloat0", "cardFloat1", "cardFloat2", "cardFloat3"]
    ensures IdleKeyframes(index) == IdleKeyframes(HoverStyle(index))
  {
    var d := index % HoverStyleCount;
    assert Decimal(d) == [DigitChar(d)];
    if d == 0 {
      assert IdleKeyframes(index) == "cardFloat0";
    } else if d == 1 {
      assert IdleKeyframes(index) == "cardFloat1";
    } else if d == 2 {
      assert IdleKeyframes(index) == "cardFloat2";
    } else {
      assert IdleKeyframes(index) == "cardFloat3";
    }
  }

  /** `data-delay` of card `index`, in seconds. */
  function RevealDelay(index: nat): (d: real)
    ensures d >= 0.0
  {
    index as real * 0.15
  }

  /** The idle animation's duration for card `index`, in seconds. */
  function IdleDuration(index: nat): (d: real)
    ensures d >= 5.0
  {
    5.0 + index as real * 1.5
  }

  /** The idle animation's start delay for card `index`, in seconds. */
  function IdleStagger(index: nat): (d: real)
    ensures d >= 0.0
  {
    index as real * 0.5
  }

  /** Later cards reveal later, float more slowly and start floating later; the first starts at once with a 5 s period. */
  lemma CardTimingsIncrease(i: nat, j: nat)
    requires i < j
    ensures RevealDelay(i) < RevealDelay(j)
    ensures IdleDuration(i) < IdleDuration(j)
    ensures IdleStagger(i) < IdleStagger(j)
    ensures RevealDelay(0) == 0.0 && IdleStagger(0) == 0.0 && IdleDuration(0) == 5.0
  {
  }

  /** The idle animation a card runs. */
  datatype IdleAnimation = IdleAnimation(keyframes: string, duration: real, delay: real)

  /** A project card as the page script sees it: its classes, `data-delay`, idle animation, and chosen hover style. */
  datatype Card = Card(classes: set<string>, delay: Option<real>, idle: Option<IdleAnimation>, hoverStyle: Option<nat>)

  /** What `setupProjectCards` does to card `index`. */
  function ConfiguredCard(card: Card, index: nat): (r: Card)
    ensures r.classes == card.classes
    ensures r.delay.Some? && r.idle.Some? && r.hoverStyle.Some?
  {
    card.(delay := Some(RevealDelay(index)),
          idle := Some(IdleAnimation(IdleKeyframes(index), IdleDuration(index), IdleStagger(index))),
          hoverStyle := Some(HoverStyle(index)))
  }

  /** `setupProjectCards` (with `addIdleAnimation`): every card gets its delay, hover style and idle animation, in place. */
  method SetupProjectCards(cards: array<Card>)
    modifies cards
    ensures forall k :: 0 <= k < cards.Length ==> cards[k] == ConfiguredCard(old(cards[k]), k)
  {
    for index := 0 to cards.Length
      invariant forall k :: 0 <= k < index ==> cards[k] == ConfiguredCard(old(cards[k]), k)
      invariant forall k :: index <= k < cards.Length ==> cards[k] == old(cards[k])
    {
      var card := cards[index];
      card := card.(delay := Some(index as real * 0.15));
      var style := index % HoverStyleCount;
      var duration := 5.0 + index as real * 1.5;
      var stagger := index as real * 0.5;
      card := card.(idle := Some(IdleAnimation("cardFloat" + Decimal(index % 4), duration, stagger)));
      card := card.(hoverStyle := Some(style));
      cards[index] := card;
    }
  }

  /** A configured card's extra reveal fires 150 ms per card position after it comes into view. */
  lemma CardRevealTimeout(card: Card, index: nat)
    requires Animations.ProjectCardClass in card.classes
    ensures var c := ConfiguredCard(card, index);
      Animations.RevealTimeout(Animations.Element(c.classes, c.delay)) == Some(index as real * 150.0)
  {
  }

  /** The pointer's tilt of a card: `rotateX = (y - h/2) / 20`, `rotateY = (w/2 - x) / 20`, with `(x, y)` relative to the card. */
  function CardTilt(pointer: Vec2, left: real, top: real, width: real, height: real): (t: Vec2)
    ensures pointer.x - left == width / 2.0 && pointer.y - top == height / 2.0 ==> t == Vec2(0.0, 0.0)
    ensures t.x > 0.0 <==> pointer.y - top > height / 2.0
    ensures t.y > 0.0 <==> pointer.x - left < width / 2.0
  {
    var x := pointer.x - left;
    var y := pointer.y - top;
    Vec2((y - height / 2.0) / 20.0, (width / 2.0 - x) / 20.0)
  }

  /** The rotation each hover style applies for a tilt: it scales the two angles by its own factors. */
  function HoverRotation(style: nat, tilt: Vec2): (r: Vec2)
    requires style < HoverStyleCount
    ensures tilt == Vec2(0.0, 0.0) ==> r == Vec2(0.0, 0.0)
    ensures (r.x > 0.0 <==> tilt.x > 0.0) && (r.y > 0.0 <==> tilt.y > 0.0)
  {
    if style == 0 then Vec2(tilt.x * 0.8, tilt.y * 0.8)
    else if style == 1 then Vec2(tilt.x, tilt.y * 1.5)
    else if style == 2 then Vec2(tilt.x * 0.5, tilt.y * 0.5)
    else Vec2(tilt.x * 1.2, tilt.y * 1.2)
  }

  /** With the pointer on a card's centre no hover style tilts it. */
  lemma CentredPointerNoTilt(index: nat, left: real, top: real, width: real, height: real)
    ensures HoverRotation(HoverStyle(index), CardTilt(Vec2(left + width / 2.0, top + height / 2.0), left, top, width, height)) == Vec2(0.0, 0.0)
  {
  }

  /** The fraction of the window height a section's top must rise above to be revealed. */
  const RevealLine: real := 0.75

  /** What one `revealSections` pass makes of the sections' "visible" flags. */
  function Revealed(visible: seq<bool>, tops: seq<real>, innerHeight: real): (r: seq<bool>)
    requires |tops| == |visible|
    ensures |r| == |visible|
  {
    seq(|visible|, k requires 0 <= k < |visible| => visible[k] || tops[k] < innerHeight * RevealLine)
  }

  /** A pass reveals exactly the sections already visible or whose top lies above three quarters of the window. */
  lemma RevealedExactly(visible: seq<bool>, tops: seq<real>, innerHeight: real)
    requires |tops| == |visible|
    ensures forall k :: 0 <= k < |visible| ==> (Revealed(visible, tops, innerHeight)[k] <==> visible[k] || tops[k] < 0.75 * innerHeight)
  {
  }

  /** The section positions a scroll event sees. */
  datatype Snapshot = Snapshot(tops: seq<real>, innerHeight: real)

  /** The flags after a series of scroll events. */
  function RevealedAfter(visible: seq<bool>, events: seq<Snapshot>): (r: seq<bool>)
    requires forall e :: e in events ==> |e.tops| == |visible|
    ensures |r| == |visible|
    decreases |events|
  {
    if events == [] then visible
    else RevealedAfter(Revealed(visible, events[0].tops, events[0].innerHeight), events[1..])
  }

  /** Reveal is monotone: over any series of scroll events, a visible section stays visible. */
  lemma {:induction false} RevealNeverHides(visible: seq<bool>, events: seq<Snapshot>)
    requires forall e :: e in events ==> |e.tops| == |visible|
    ensures forall k :: 0 <= k < |visible| && visible[k] ==> RevealedAfter(visible, events)[k]
    decreases |events|
  {
    if events != [] {
      var next := Revealed(visible, events[0].tops, events[0].innerHeight);
      assert forall e :: e in events[1..] ==> e in events;
      RevealNeverHides(next, events[1..]);
    }
  }

  /** The debug easter egg reacts to `d` and `D` only. */
  predicate IsDebugKey(key: string)
  {
    key == "d" || key == "D"
  }

  /** The debug mode after a key press. */
  function NextDebugMode(debugMode: bool, key: string): (next: bool)
    ensures next != debugMode <==> IsDebugKey(key)
  {
    if key == "d" || key == "D" then !debugMode else debugMode
  }

  /** Two presses of the same key leave the debug mode where it was. */
  lemma TwoPressesRestore(debugMode: bool, key: string)
    ensures NextDebugMode(NextDebugMode(debugMode, key), key) == debugMode
  {
  }

  class MainPage {
    /** Whether the page has the `.nav` bar; the scroll handler uses it without checking. */
    const hasNav: bool
    /** The page-level `scene3D`; null when its construction threw. */
    const scene: Scene.Scene3D?
    /** The "visible" class of each `section`, in document order. */
    const sectionVisible: array<bool>

    var toggleActive: bool
    var menuActive: bool
    var bodyOverflow: string
    var lastScroll: real
    var navOpaque: bool
    var navHidden: bool
    var debugMode: bool

    /** The toggle and the menu agree, and page scrolling is locked exactly while the menu is open. */
    ghost predicate Valid()
      reads this
    {
      toggleActive == menuActive && (bodyOverflow == "hidden" <==> menuActive)
    }

    constructor (hasNav: bool, scene: Scene.Scene3D?, sectionVisible: array<bool>)
      ensures Valid()
      ensures this.hasNav == hasNav && this.scene == scene && this.sectionVisible == sectionVisible
      ensures !toggleActive && !menuActive && bodyOverflow == ""
      ensures lastScroll == 0.0 && !navOpaque && !navHidden && !debugMode
    {
      this.hasNav, this.scene, this.sectionVisible := hasNav, scene, sectionVisible;
      toggleActive, menuActive, bodyOverflow := false, false, "";
      lastScroll, navOpaque, navHidden, debugMode := 0.0, false, false, false;
    }

    /** The menu button: flips both "active" classes; scrolling is locked exactly while the menu is open. */
    method ToggleMenu()
      requires Valid()
      modifies this`toggleActive, this`menuActive, this`bodyOverflow
      ensures Valid()
      ensures toggleActive == !old(toggleActive) && menuActive == !old(menuActive)
      ensures bodyOverflow == if menuActive then "hidden" else ""
    {
      toggleActive := !toggleActive;
      menuActive := !menuActive;
      if menuActive {
        bodyOverflow := "hidden";
      } else {
        bodyOverflow := "";
      }
    }

    /** A click on a menu link closes the menu. */
    method CloseMenuFromLink()
      requires Valid()
      modifies this`toggleActive, this`menuActive, this`bodyOverflow
      ensures Valid()
      ensures !toggleActive && !menuActive && bodyOverflow == ""
    {
      toggleActive := false;
      menuActive := false;
      bodyOverflow := "";
    }

    /**
      A scroll event for the navigation bar: opaque past 100 px, slid away while
      scrolling down past 500 px. Without a bar the handler throws before
      remembering the position.
     */
    method OnScroll(scrollY: real) returns (threw: bool)
      modifies this`lastScroll, this`navOpaque, this`navHidden
      ensures threw == !hasNav
      ensures !hasNav ==> lastScroll == old(lastScroll) && navOpaque == old(navOpaque) && navHidden == old(navHidden)
      ensures hasNav ==> (navOpaque <==> scrollY > 100.0)
      ensures hasNav ==> (navHidden <==> scrollY > old(lastScroll) && scrollY > 500.0)
      ensures hasNav ==> lastScroll == scrollY
    {
      if !hasNav {
        return true;
      }
      navOpaque := scrollY > 100.0;
      navHidden := scrollY > lastScroll && scrollY > 500.0;
      lastScroll := scrollY;
      return false;
    }

    /** `revealSections`: each section whose top is above three quarters of the window gains "visible". */
    method RevealSections(tops: seq<real>, innerHeight: real)
      requires |tops| == sectionVisible.Length
      modifies sectionVisible
      ensures sectionVisible[..] == Revealed(old(sectionVisible[..]), tops, innerHeight)
    {
      for index := 0 to sectionVisible.Length
        invariant forall k :: 0 <= k < index ==> sectionVisible[k] == (old(sectionVisible[k]) || tops[k] < innerHeight * RevealLine)
        invariant forall k :: index <= k < sectionVisible.Length ==> sectionVisible[k] == old(sectionVisible[k])
      {
        if tops[index] < innerHeight * 0.75 {
          sectionVisible[index] := true;
        }
      }
    }

    /** `visibilitychange`: a hidden tab pauses the scene, a visible one resumes it. */
    method OnVisibilityChange(hidden: bool)
      modifies (if scene == null then {} else {scene})`isPaused
      ensures scene != null ==> scene.isPaused == hidden
    {
      if scene != null {
        if hidden {
          scene.Pause();
        } else {
          scene.Resume();
        }
      }
    }

    /**
      `keydown`: `d` or `D` flips the debug mode and hands the new value to the
      scene; `threw` says whether the scene's `toggleDebug` threw. Other keys do nothing.
     */
    method OnKeyDown(key: string) returns (threw: bool)
      modifies this`debugMode, (if scene == null then {} else {scene})`children
      ensures debugMode == NextDebugMode(old(debugMode), key)
      ensures !IsDebugKey(key) || scene == null ==> !threw
      ensures scene != null && !IsDebugKey(key) ==> scene.children == old(scene.children)
      ensures scene != null && IsDebugKey(key) ==> threw == !scene.hasCanvas
      ensures scene != null && IsDebugKey(key) && !scene.hasCanvas ==> scene.children == old(scene.children)
      ensures scene != null && IsDebugKey(key) && scene.hasCanvas ==>
        scene.children == if debugMode then Scene.DebugOn(old(scene.children)) else Scene.DebugOff(old(scene.children))
    {
      threw := false;
      if key == "d" || key == "D" {
        debugMode := !debugMode;
        if scene != null {
          threw := scene.ToggleDebug(debugMode);
        }
      }
    }
  }
}
