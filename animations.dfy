/**
  The scroll, text and parallax controllers. `ScrollAnimations` throttles scroll
  events to one pending animation frame and smooths the scroll progress;
  `TextElement` is an element whose text `splitText` and `fadeInWords` replace
  by spans; `ParallaxController` smooths the pointer and offsets parallax layers.
 */
module Animations {
  import opened Wrappers
  import opened Text
  import opened Smoothing
  import opened Geometry
  import Scene

  /** `scrollY / (scrollHeight - innerHeight)`, the page's scroll progress. */
  function ScrollRatio(scrollY: real, scrollHeight: real, innerHeight: real): (p: real)
    requires scrollHeight - innerHeight != 0.0
    ensures 0.0 <= scrollY <= scrollHeight - innerHeight ==> 0.0 <= p <= 1.0
    ensures scrollY == 0.0 ==> p == 0.0
    ensures scrollY == scrollHeight - innerHeight ==> p == 1.0
  {
    RatioFacts(scrollY, scrollHeight - innerHeight);
    scrollY / (scrollHeight - innerHeight)
  }

  lemma RatioFacts(a: real, b: real)
    requires b != 0.0
    ensures 0.0 <= a <= b ==> 0.0 <= a / b <= 1.0
    ensures a == 0.0 ==> a / b == 0.0
    ensures a == b ==> a / b == 1.0
  {
    if b > 0.0 {
      QuotientFacts(a, b);
    }
  }

  /** The class whose elements get the delayed extra reveal. */
  const ProjectCardClass: string := "project-card"

  /** An observed element: its classes and its `data-delay` attribute (already a number; absent or empty is `None`). */
  datatype Element = Element(classes: set<string>, delay: Option<real>)

  /**
    The timeout, in milliseconds, `animateElement` schedules for the element's
    extra reveal: only project cards get one, after their delay in seconds
    (0 when the attribute is missing).
   */
  function RevealTimeout(e: Element): (ms: Option<real>)
    ensures ms.Some? <==> ProjectCardClass in e.classes
    ensures ms.Some? && e.delay.None? ==> ms.value == 0.0
    ensures ms.Some? && e.delay.Some? ==> ms.value == e.delay.value * 1000.0
  {
    if ProjectCardClass in e.classes then
      var delay := match e.delay case Some(d) => d case None => 0.0;
      Some(delay * 1000.0)
    else
      None
  }

  class ScrollAnimations {
    /** The scene to steer; null stands for a falsy `scene3D` argument. */
    const scene: Scene.Scene3D?
    var scrollProgress: real
    var targetScrollProgress: real
    /** The closure flag `ticking` of `setupScrollListener`. */
    var ticking: bool
    /** Animation-frame callbacks requested by the scroll listener and not yet run. */
    var pendingFrames: nat

    /** The throttle's invariant: a frame is pending exactly while `ticking` is set, and never more than one. */
    ghost predicate Valid()
      reads this
    {
      pendingFrames == if ticking then 1 else 0
    }

    /** `new ScrollAnimations(scene3D)` with its first `animate` call, which leaves the zero progress at zero. */
    constructor (scene: Scene.Scene3D?)
      ensures Valid()
      ensures this.scene == scene
      ensures scrollProgress == 0.0 && targetScrollProgress == 0.0 && !ticking
    {
      this.scene := scene;
      scrollProgress, targetScrollProgress := 0.0, 0.0;
      ticking, pendingFrames := false, 0;
    }

    /** A scroll event: requests a frame unless one is already pending. */
    method OnScroll()
      requires Valid()
      modifies this`ticking, this`pendingFrames
      ensures Valid() && ticking
      ensures old(ticking) ==> pendingFrames == old(pendingFrames)
      ensures !old(ticking) ==> pendingFrames == old(pendingFrames) + 1
    {
      if !ticking {
        pendingFrames := pendingFrames + 1;
        ticking := true;
      }
    }

    /** The requested frame: samples the scroll position, then clears the flag so the next scroll can request again. */
    method OnFrame(scrollY: real, scrollHeight: real, innerHeight: real, sin: real -> real)
      requires Valid() && pendingFrames > 0
      requires scrollHeight - innerHeight != 0.0
      requires scene != null ==> scene.Valid()
      modifies this`targetScrollProgress, this`ticking, this`pendingFrames
      modifies (if scene == null then {} else {scene})`scrollProgress, (if scene == null then {} else {scene})`camera, (if scene == null then {} else {scene})`buildings
      ensures Valid() && !ticking && pendingFrames == 0
      ensures targetScrollProgress == ScrollRatio(scrollY, scrollHeight, innerHeight)
      ensures scene != null ==> scene.Valid() && scene.scrollProgress == targetScrollProgress
      ensures scene != null && scene.hasCanvas ==>
        scene.camera == Scene.LerpVec(old(scene.camera), Scene.ScrollTarget(targetScrollProgress, sin))
      ensures scene != null && scene.hasCanvas ==>
        scene.buildings == Scene.ScrolledBuildings(old(scene.buildings), targetScrollProgress, sin)
      ensures scene != null && !scene.hasCanvas ==>
        scene.camera == old(scene.camera) && scene.buildings == old(scene.buildings)
    {
      UpdateScrollProgress(scrollY, scrollHeight, innerHeight, sin);
      ticking := false;
      pendingFrames := pendingFrames - 1;
    }

    /** `updateScrollProgress`: the new target progress, handed unchanged to the scene. */
    method UpdateScrollProgress(scrollY: real, scrollHeight: real, innerHeight: real, sin: real -> real)
      requires scrollHeight - innerHeight != 0.0
      requires scene != null ==> scene.Valid()
      modifies this`targetScrollProgress
      modifies (if scene == null then {} else {scene})`scrollProgress, (if scene == null then {} else {scene})`camera, (if scene == null then {} else {scene})`buildings
      ensures targetScrollProgress == ScrollRatio(scrollY, scrollHeight, innerHeight)
      ensures scene != null ==> scene.Valid() && scene.scrollProgress == targetScrollProgress
      ensures scene != null && scene.hasCanvas ==>
        scene.camera == Scene.LerpVec(old(scene.camera), Scene.ScrollTarget(targetScrollProgress, sin))
      ensures scene != null && scene.hasCanvas ==>
        scene.buildings == Scene.ScrolledBuildings(old(scene.buildings), targetScrollProgress, sin)
      ensures scene != null && !scene.hasCanvas ==>
        scene.camera == old(scene.camera) && scene.buildings == old(scene.buildings)
    {
      targetScrollProgress := scrollY / (scrollHeight - innerHeight);
      if scene != null {
        scene.UpdateScroll(targetScrollProgress, sin);
      }
    }

    /** One frame of `animate`: the progress covers 5% of its distance to the target. */
    method Animate()
      modifies this`scrollProgress
      ensures scrollProgress == Lerp(old(scrollProgress), targetScrollProgress)
    {
      scrollProgress := scrollProgress + (targetScrollProgress - scrollProgress) * 0.05;
    }
  }

  /** The no-break space `splitText` puts in place of a space, so that empty spans keep their width. */
  const Nbsp: char := '\U{00A0}'

  /** A span the text utilities create: its text and its transition delay in seconds. */
  datatype Span = Span(content: string, delay: real)

  /** What a character of the text looks like in its span. */
  function Glyph(c: char): (g: char)
    ensures g == Nbsp <==> c == ' ' || c == Nbsp
    ensures c != ' ' ==> g == c
  {
    if c == ' ' then Nbsp else c
  }

  /** `splitText`: one span per character, in order, each delayed 0.03 s more than the one before. */
  function SplitText(text: string): (spans: seq<Span>)
    ensures |spans| == |text|
  {
    seq(|text|, k requires 0 <= k < |text| => Span([Glyph(text[k])], k as real * 0.03))
  }

  /** `fadeInWords`: one span per piece of `text.split(' ')`, each delayed 0.1 s more than the one before. */
  function FadeInWords(text: string): (spans: seq<Span>)
    ensures |spans| == Count(text, ' ') + 1
  {
    SplitCount(text, ' ');
    var words := Split(text, ' ');
    seq(|words|, k requires 0 <= k < |words| => Span(words[k], k as real * 0.1))
  }

  /** The texts of a list of spans. */
  function Contents(spans: seq<Span>): (texts: seq<string>)
    ensures |texts| == |spans|
    ensures forall k :: 0 <= k < |spans| ==> texts[k] == spans[k].content
  {
    if spans == [] then [] else [spans[0].content] + Contents(spans[1..])
  }

  /** The texts of a list of spans run together (the element's `textContent` afterwards). */
  function Concat(texts: seq<string>): string
  {
    if texts == [] then [] else texts[0] + Concat(texts[1..])
  }

  /** Reading spans back, with each no-break space taken for the space it stands for. */
  function ReadBack(s: string): string
  {
    if s == [] then [] else [if s[0] == Nbsp then ' ' else s[0]] + ReadBack(s[1..])
  }

  /** Each span of `splitText` holds exactly one character: a space shown as a no-break space, anything else unchanged. */
  lemma SplitTextSpans(text: string)
    ensures |SplitText(text)| == |text|
    ensures forall k :: 0 <= k < |text| ==> |SplitText(text)[k].content| == 1
    ensures forall k :: 0 <= k < |text| && text[k] != ' ' ==> SplitText(text)[k].content == [text[k]]
    ensures forall k :: 0 <= k < |text| && text[k] == ' ' ==> SplitText(text)[k].content == [Nbsp]
  {
  }

  lemma {:induction false} SplitTextTail(text: string)
    requires text != []
    ensures Contents(SplitText(text)) == [[Glyph(text[0])]] + Contents(SplitText(text[1..]))
  {
    var all, rest := Contents(SplitText(text)), Contents(SplitText(text[1..]));
    assert |all| == |[[Glyph(text[0])]] + rest|;
    forall k | 0 <= k < |all|
      ensures all[k] == ([[Glyph(text[0])]] + rest)[k]
    {
      if k > 0 {
        assert all[k] == [Glyph(text[k])];
        assert rest[k - 1] == [Glyph(text[1..][k - 1])];
      }
    }
  }

  /** Reading the spans of `splitText` back gives the text again, provided it holds no no-break space of its own. */
  lemma {:induction false} SplitTextRoundTrip(text: string)
    requires Nbsp !in text
    ensures ReadBack(Concat(Contents(SplitText(text)))) == text
  {
    if text != [] {
      SplitTextRoundTrip(text[1..]);
      SplitTextTail(text);
      var rest := Concat(Contents(SplitText(text[1..])));
      assert Concat(Contents(SplitText(text))) == [Glyph(text[0])] + rest;
      assert ([Glyph(text[0])] + rest)[1..] == rest;
      assert [text[0]] + text[1..] == text;
    }
  }

  /** Spans appear one after the other: delays grow by 0.03 s per character and 0.1 s per word. */
  lemma SpanDelaysIncrease(text: string)
    ensures forall k :: 0 <= k < |SplitText(text)| ==> SplitText(text)[k].delay == k as real * 0.03
    ensures forall j, k :: 0 <= j < k < |SplitText(text)| ==> SplitText(text)[j].delay < SplitText(text)[k].delay
    ensures forall k :: 0 <= k < |FadeInWords(text)| ==> FadeInWords(text)[k].delay == k as real * 0.1
    ensures forall j, k :: 0 <= j < k < |FadeInWords(text)| ==> FadeInWords(text)[j].delay < FadeInWords(text)[k].delay
  {
  }

  /**
    `fadeInWords` makes one span more than there are spaces, no span holds a
    space, and joining the spans' texts with spaces restores the text.
   */
  lemma FadeInWordsRoundTrip(text: string)
    ensures |FadeInWords(text)| == Count(text, ' ') + 1
    ensures forall k :: 0 <= k < |FadeInWords(text)| ==> ' ' !in FadeInWords(text)[k].content
    ensures Join(Contents(FadeInWords(text)), ' ') == text
  {
    SplitCount(text, ' ');
    SplitPiecesFree(text, ' ');
    JoinSplit(text, ' ');
    assert Contents(FadeInWords(text)) == Split(text, ' ');
  }

  /** Adjacent spaces give an empty word, and words keep their letters. */
  lemma FadeInWordsExample()
    ensures Contents(FadeInWords("a  b")) == ["a", "", "b"]
  {
    assert "a  b" == "a" + [' '] + ("" + [' '] + "b");
    SplitPrefix("a", ' ', "" + [' '] + "b");
    SplitPrefix("", ' ', "b");
    SplitWhole("b", ' ');
    assert Split("a  b", ' ') == ["a", "", "b"];
  }

  /** An element whose text the text utilities turn into spans. */
  class TextElement {
    /** `textContent`. */
    var text: string
    /** The element's span children, in order. */
    var spans: seq<Span>

    constructor (text: string)
      ensures this.text == text && spans == []
    {
      this.text := text;
      spans := [];
    }

    /** `TextAnimations.splitText(element)`: the text replaced by one span per character. */
    method SplitIntoCharacters()
      modifies this
      ensures spans == SplitText(old(text))
      ensures text == Concat(Contents(spans))
    {
      var chars := text;
      spans := [];
      var index := 0;
      while index < |chars|
        invariant 0 <= index <= |chars|
        invariant spans == SplitText(chars[..index])
      {
        spans := spans + [Span([Glyph(chars[index])], index as real * 0.03)];
        index := index + 1;
        assert chars[..index][..index - 1] == chars[..index - 1];
      }
      assert chars[..index] == chars;
      text := Concat(Contents(spans));
    }

    /** `TextAnimations.fadeInWords(element)`: the text replaced by one span per word of `text.split(' ')`. */
    method SplitIntoWords()
      modifies this
      ensures spans == FadeInWords(old(text))
      ensures text == Concat(Contents(spans))
    {
      var words := Split(text, ' ');
      ghost var whole := text;
      spans := [];
      var index := 0;
      while index < |words|
        invariant 0 <= index <= |words|
        invariant spans == FadeInWords(whole)[..index]
      {
        spans := spans + [Span(words[index], index as real * 0.1)];
        index := index + 1;
      }
      text := Concat(Contents(spans));
    }
  }

  /** `parseFloat(el.dataset.parallax || 1)` of a selected `[data-parallax]` layer: its speed, 1 when the attribute is empty (`None`). */
  function LayerSpeed(attr: Option<real>): (speed: real)
    ensures attr.None? ==> speed == 1.0
    ensures attr.Some? ==> speed == attr.value
  {
    match attr
    case Some(s) => s
    case None => 1.0
  }

  function Abs(x: real): real
  {
    if x < 0.0 then -x else x
  }

  /** A parallax layer's translation: the smoothed pointer times the layer's speed times 20 px. */
  function ParallaxOffset(current: Vec2, speed: real): (o: Vec2)
    ensures Abs(current.x) <= 1.0 ==> Abs(o.x) <= 20.0 * Abs(speed)
    ensures Abs(current.y) <= 1.0 ==> Abs(o.y) <= 20.0 * Abs(speed)
    ensures o.x == 0.0 <==> current.x == 0.0 || speed == 0.0
    ensures o.y == 0.0 <==> current.y == 0.0 || speed == 0.0
  {
    ScaledBound(current.x, speed);
    ScaledBound(current.y, speed);
    Vec2(current.x * speed * 20.0, current.y * speed * 20.0)
  }

  lemma ScaledBound(c: real, s: real)
    ensures Abs(c) <= 1.0 ==> Abs(c * s * 20.0) <= 20.0 * Abs(s)
    ensures c * s * 20.0 == 0.0 <==> c == 0.0 || s == 0.0
  {
    assert Abs(c * s * 20.0) == Abs(c) * Abs(s) * 20.0;
    if Abs(c) <= 1.0 {
      MulMonotone(Abs(c), Abs(s), 1.0, Abs(s));
    }
  }

  /**
    A layer whose `data-parallax` is empty moves exactly as a layer of speed 1: by 20 px
    times the smoothed pointer, so at most 20 px on each axis while the pointer
    stays inside the unit square.
   */
  lemma DefaultLayerOffset(current: Vec2)
    ensures LayerSpeed(None) == LayerSpeed(Some(1.0))
    ensures ParallaxOffset(current, LayerSpeed(None)) == Vec2(20.0 * current.x, 20.0 * current.y)
    ensures Abs(current.x) <= 1.0 && Abs(current.y) <= 1.0 ==>
      Abs(ParallaxOffset(current, LayerSpeed(None)).x) <= 20.0 && Abs(ParallaxOffset(current, LayerSpeed(None)).y) <= 20.0
  {
  }

  /** The `forEach` over the `[data-parallax]` elements: each layer's translation, in document order. */
  method LayerOffsets(current: Vec2, layers: seq<Option<real>>) returns (offsets: seq<Vec2>)
    ensures |offsets| == |layers|
    ensures forall k :: 0 <= k < |layers| ==> offsets[k] == ParallaxOffset(current, LayerSpeed(layers[k]))
  {
    offsets := [];
    var index := 0;
    while index < |layers|
      invariant 0 <= index <= |layers| && |offsets| == index
      invariant forall k :: 0 <= k < index ==> offsets[k] == ParallaxOffset(current, LayerSpeed(layers[k]))
    {
      var speed := match layers[index] case Some(s) => s case None => 1.0;
      offsets := offsets + [Vec2(current.x * speed * 20.0, current.y * speed * 20.0)];
      index := index + 1;
    }
  }

  class ParallaxController {
    /** The pointer, normalised to [-1, 1] on each axis. */
    var mouse: Vec2
    /** Its smoothed value. */
    var current: Vec2

    /** Both the pointer and its smoothed value stay inside the unit square (they start at its centre). */
    ghost predicate InUnitSquare()
      reads this
    {
      -1.0 <= mouse.x <= 1.0 && -1.0 <= mouse.y <= 1.0 && -1.0 <= current.x <= 1.0 && -1.0 <= current.y <= 1.0
    }

    constructor ()
      ensures mouse == Vec2(0.0, 0.0) && current == Vec2(0.0, 0.0)
      ensures InUnitSquare()
    {
      mouse, current := Vec2(0.0, 0.0), Vec2(0.0, 0.0);
    }

    /** A pointer move: the normalised pointer; a pointer inside the window keeps the square invariant. */
    method OnMouseMove(pointer: Vec2, innerWidth: real, innerHeight: real)
      requires innerWidth > 0.0 && innerHeight > 0.0
      modifies this`mouse
      ensures mouse == Vec2(PointerUnit(pointer.x, innerWidth), PointerUnit(pointer.y, innerHeight))
      ensures old(InUnitSquare()) && 0.0 <= pointer.x <= innerWidth && 0.0 <= pointer.y <= innerHeight ==> InUnitSquare()
    {
      mouse := Vec2((pointer.x / innerWidth - 0.5) * 2.0, (pointer.y / innerHeight - 0.5) * 2.0);
    }

    /** One frame: the smoothed pointer moves 5% toward the pointer, then every layer gets its translation. */
    method Animate(layers: seq<Option<real>>) returns (offsets: seq<Vec2>)
      modifies this`current
      ensures current == Vec2(Lerp(old(current).x, mouse.x), Lerp(old(current).y, mouse.y))
      ensures old(InUnitSquare()) ==> InUnitSquare()
      ensures |offsets| == |layers|
      ensures forall k :: 0 <= k < |layers| ==> offsets[k] == ParallaxOffset(current, LayerSpeed(layers[k]))
    {
      LerpBetween(current.x, mouse.x);
      LerpBetween(current.y, mouse.y);
      current := Vec2(current.x + (mouse.x - current.x) * 0.05, current.y + (mouse.y - current.y) * 0.05);
      offsets := LayerOffsets(current, layers);
    }
  }
}
