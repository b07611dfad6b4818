/**
  The project pages' script: the mobile menu, the navigation bar's scroll rule,
  the hover tilt of project cards and the image-gallery modal with its counter
  and swipe support. The module-level gallery state (`projectImages`,
  `currentImgIndex`) and the DOM flags the handlers toggle are the fields of
  `ProjectPage`; each handler is one method, run atomically.
 */
module Projects {
  import opened Wrappers
  import opened Text
  import opened Geometry

  /** The texts `openDetails` writes into the modal. */
  datatype Details = Details(title: string, desc: string, year: string, location: string, area: string)

  /** `(index + step + n) % n` for a step of one image either way (JavaScript's `%` agrees with Dafny's here: the left operand is never negative). */
  function Wrap(index: nat, step: int, n: nat): (r: nat)
    requires index < n
    requires step == 1 || step == -1
    ensures r < n
    ensures step == 1 ==> r == if index == n - 1 then 0 else index + 1
    ensures step == -1 ==> r == if index == 0 then n - 1 else index - 1
  {
    ReduceOnce(index + step + n, n);
    (index + step + n) % n
  }

  /** A number up to twice the modulus reduces by subtracting the modulus at most twice. */
  lemma ReduceOnce(a: int, n: int)
    requires 0 < n && 0 <= a <= 2 * n
    ensures a % n == if a < n then a else if a < 2 * n then a - n else 0
  {
    if a < n {
      assert a == 0 * n + a;
    } else if a < 2 * n {
      assert a == 1 * n + (a - n);
    } else {
      assert a == 2 * n + 0;
    }
  }

  /** A step forward undoes a step back and the other way round. */
  lemma WrapUndo(index: nat, n: nat)
    requires index < n
    ensures Wrap(Wrap(index, 1, n), -1, n) == index
    ensures Wrap(Wrap(index, -1, n), 1, n) == index
  {
  }

  /** `k` steps forward from `index`. */
  function Advance(index: nat, k: nat, n: nat): (r: nat)
    requires index < n
    ensures r < n
  {
    if k == 0 then index else Wrap(Advance(index, k - 1, n), 1, n)
  }

  /** Going forward `k <= n` times lands on `index + k` wrapped once past the end; `n` steps forward come back to the start. */
  lemma {:induction false} AdvanceCycles(index: nat, k: nat, n: nat)
    requires index < n && k <= n
    ensures Advance(index, k, n) == if index + k < n then index + k else index + k - n
    ensures k == n ==> Advance(index, k, n) == index
  {
    if k > 0 {
      AdvanceCycles(index, k - 1, n);
    }
  }

  /** A touch moved horizontally by more than this many pixels is a swipe. */
  const SwipeThreshold: real := 50.0

  /** The gallery step a touch that travelled `diff` pixels asks for: right swipes go back, left swipes go on. */
  function SwipeStep(diff: real): (r: Option<int>)
    ensures r == None <==> -SwipeThreshold <= diff <= SwipeThreshold
    ensures r == Some(-1) <==> diff > SwipeThreshold
    ensures r == Some(1) <==> diff < -SwipeThreshold
  {
    var distance := if diff < 0.0 then -diff else diff;
    if distance > SwipeThreshold then Some(if diff > 0.0 then -1 else 1) else None
  }

  /** `String(n).padStart(2, '0')`. */
  function Pad2(n: nat): (r: string)
    ensures 2 <= |r|
    ensures n < 100 ==> |r| == 2
  {
    PadStart(Decimal(n), 2, '0')
  }

  /** The counter text for the image at `index` of `count`: `NN / NN`. */
  function CounterText(index: nat, count: nat): (t: string)
    ensures index + 1 < 100 && count < 100 ==> |t| == 7
  {
    Pad2(index + 1) + " / " + Pad2(count)
  }

  /** An independent reader of counter texts: the image index and count it shows. */
  function ParseCounter(t: string): Option<(nat, nat)>
  {
    var parts := Split(t, ' ');
    if |parts| == 3 && parts[1] == "/" && AllDigits(parts[0]) && AllDigits(parts[2]) && DigitsValue(parts[0]) >= 1 then
      Some((DigitsValue(parts[0]) - 1, DigitsValue(parts[2])))
    else
      None
  }

  lemma DigitsHaveNoSpace(s: string)
    requires AllDigits(s)
    ensures ' ' !in s
  {
    forall k | 0 <= k < |s|
      ensures s[k] != ' '
    {
      assert IsDigit(s[k]);
    }
  }

  /** Each side of the counter is a zero-padded numeral of at least two digits denoting exactly its number. */
  lemma Pad2Numeral(n: nat)
    ensures AllDigits(Pad2(n)) && DigitsValue(Pad2(n)) == n
    ensures |Pad2(n)| == if n < 10 then 2 else |Decimal(n)|
    ensures Pad2(n)[|Pad2(n)| - |Decimal(n)|..] == Decimal(n)
  {
    PadZerosValue(Decimal(n), 2);
    DecimalRoundTrip(n);
  }

  /** The counter is the two numerals around `" / "`, written as pieces for `Split`. */
  lemma CounterShape(index: nat, count: nat)
    ensures CounterText(index, count) == Pad2(index + 1) + [' '] + ("/" + [' '] + Pad2(count))
  {
    SlashPieces(Pad2(index + 1), Pad2(count));
  }

  lemma SlashPieces(l: string, r: string)
    ensures l + " / " + r == l + [' '] + ("/" + [' '] + r)
  {
    assert " / " == [' '] + "/" + [' '];
  }

  /** Splitting two space-free numerals around `" / "` on spaces gives the two numerals and the slash. */
  lemma SplitAroundSlash(l: string, r: string)
    requires ' ' !in l && ' ' !in r
    ensures Split(l + [' '] + ("/" + [' '] + r), ' ') == [l, "/", r]
  {
    SplitPrefix(l, ' ', "/" + [' '] + r);
    SplitPrefix("/", ' ', r);
    SplitWhole(r, ' ');
  }

  /** The counter can be read back: it shows the 1-based index and the count, neither truncated. */
  lemma CounterRoundTrip(index: nat, count: nat)
    ensures ParseCounter(CounterText(index, count)) == Some((index, count))
  {
    var l, r := Pad2(index + 1), Pad2(count);
    Pad2Numeral(index + 1);
    Pad2Numeral(count);
    DigitsHaveNoSpace(l);
    DigitsHaveNoSpace(r);
    CounterShape(index, count);
    SplitAroundSlash(l, r);
  }

  /** Two worked counters: the first of five images, and a three-digit index that padding leaves whole. */
  lemma CounterExamples()
    ensures CounterText(0, 5) == "01 / 05"
    ensures CounterText(99, 120) == "100 / 120"
  {
    assert Decimal(1) == "1" && Decimal(5) == "5";
    assert Decimal(10) == "10" && Decimal(100) == "100";
    assert Decimal(12) == "12" && Decimal(120) == "120";
  }

  /** The "active" marks of `n` slider images when exactly the one at `index` is shown. */
  function ActiveMarks(n: nat, index: nat): (marks: seq<bool>)
    ensures |marks| == n
  {
    seq(n, k => k == index)
  }

  /** How many images carry the "active" mark. */
  function CountActive(marks: seq<bool>): nat
  {
    if marks == [] then 0 else (if marks[0] then 1 else 0) + CountActive(marks[1..])
  }

  lemma {:induction false} CountMarks(n: nat, index: int)
    ensures CountActive(seq(n, k => k == index)) == if 0 <= index < n then 1 else 0
  {
    if n > 0 {
      var marks := seq(n, k => k == index);
      CountMarks(n - 1, index - 1);
      assert marks[1..] == seq(n - 1, k => k == index - 1);
    }
  }

  /** Exactly one image is active when the index lies inside the list, none when the list is empty. */
  lemma ExactlyOneActive(n: nat, index: nat)
    ensures CountActive(ActiveMarks(n, index)) == if index < n then 1 else 0
  {
    CountMarks(n, index);
  }

  /** Tilt of a project card under the pointer: `rotateX(-y/25)`, `rotateY(x/25)` with `(x, y)` measured from the card's centre. */
  function HoverTilt(pointer: Vec2, left: real, top: real, width: real, height: real): (t: Vec2)
    ensures pointer.x - left == width / 2.0 && pointer.y - top == height / 2.0 ==> t == Vec2(0.0, 0.0)
    ensures t.x < 0.0 <==> pointer.y - top > height / 2.0
    ensures t.y > 0.0 <==> pointer.x - left > width / 2.0
  {
    var x := (pointer.x - left) - width / 2.0;
    var y := (pointer.y - top) - height / 2.0;
    Vec2(-y / 25.0, x / 25.0)
  }

  /** The gallery half of the page's invariant, over the gallery's values. */
  ghost predicate GalleryConsistent(hasSlider: bool, hasCounter: bool, images: seq<string>, current: nat,
                                    slides: seq<bool>, rendered: bool, counter: string)
  {
    && (if hasSlider then |slides| == |images| else slides == [])
    && (if images == [] then current == 0 else current < |images|)
    && slides == ActiveMarks(|slides|, current)
    && (rendered ==> hasSlider)
    && (hasCounter && rendered ==> counter == CounterText(current, |images|))
  }

  class ProjectPage {
    /** Which of the elements the script looks up exist on the page. */
    const hasNav: bool
    const hasModal: bool
    const hasSlider: bool
    const hasCounter: bool

    /** Mobile menu: the "active" class of the toggle and of the menu, `body.style.overflow`, `nav.style.zIndex`. */
    var toggleActive: bool
    var menuActive: bool
    var bodyOverflow: string
    var navZIndex: string

    /** Navigation bar: the previous scroll position, whether the background is opaque and whether the bar is slid away. */
    var lastScroll: real
    var navOpaque: bool
    var navHidden: bool

    /** Gallery modal. `slides` holds the "active" class of each slider image, in document order. */
    var details: Details
    var images: seq<string>
    var current: nat
    var slides: seq<bool>
    var counter: string
    var rendered: bool
    var modalDisplayed: bool
    var modalActive: bool
    var touchStartX: real

    /**
      The page's invariant: the toggle and the menu agree, the slider holds one
      image per entry of `images` with exactly the one at `current` active, the
      index lies in the list, and the counter shows it once the slider has been
      rendered.
     */
    ghost predicate Valid()
      reads this
    {
      toggleActive == menuActive && GalleryConsistent(hasSlider, hasCounter, images, current, slides, rendered, counter)
    }

    /** The page as loaded: menu closed, no gallery opened yet; `counterText` is the counter's initial markup. */
    constructor (hasNav: bool, hasModal: bool, hasSlider: bool, hasCounter: bool, counterText: string)
      ensures Valid()
      ensures this.hasNav == hasNav && this.hasModal == hasModal
      ensures this.hasSlider == hasSlider && this.hasCounter == hasCounter
      ensures !toggleActive && !menuActive && bodyOverflow == "" && navZIndex == ""
      ensures lastScroll == 0.0 && !navOpaque && !navHidden
      ensures images == [] && current == 0 && slides == [] && counter == counterText
      ensures !rendered && !modalDisplayed && !modalActive
    {
      this.hasNav, this.hasModal, this.hasSlider, this.hasCounter := hasNav, hasModal, hasSlider, hasCounter;
      toggleActive, menuActive, bodyOverflow, navZIndex := false, false, "", "";
      lastScroll, navOpaque, navHidden := 0.0, false, false;
      details := Details("", "", "", "", "");
      images, current, slides, counter := [], 0, [], counterText;
      rendered, modalDisplayed, modalActive, touchStartX := false, false, false, 0.0;
    }

    /** The menu button: flips both "active" classes and locks page scrolling while the menu is open. */
    method HandleToggle()
      requires Valid()
      modifies this`toggleActive, this`menuActive, this`bodyOverflow, this`navZIndex
      ensures Valid()
      ensures toggleActive == !old(toggleActive) && menuActive == !old(menuActive)
      ensures bodyOverflow == if menuActive then "hidden" else ""
      ensures navZIndex == if !hasNav then old(navZIndex) else if menuActive then "10001" else "10000"
    {
      toggleActive := !toggleActive;
      menuActive := !menuActive;
      if menuActive {
        bodyOverflow := "hidden";
        if hasNav {
          navZIndex := "10001";
        }
      } else {
        bodyOverflow := "";
        if hasNav {
          navZIndex := "10000";
        }
      }
    }

    /** A click on a menu link: closes the menu whatever its state. */
    method CloseMenuFromLink()
      requires Valid()
      modifies this`toggleActive, this`menuActive, this`bodyOverflow, this`navZIndex
      ensures Valid()
      ensures !toggleActive && !menuActive && bodyOverflow == ""
      ensures navZIndex == if hasNav then "1000" else old(navZIndex)
    {
      toggleActive := false;
      menuActive := false;
      bodyOverflow := "";
      if hasNav {
        navZIndex := "1000";
      }
    }

    /** A scroll event (registered only when the bar exists): opaque past 100 px, slid away while scrolling down past 500 px. */
    method OnScroll(scrollY: real)
      requires Valid() && hasNav
      modifies this`lastScroll, this`navOpaque, this`navHidden
      ensures Valid()
      ensures navOpaque <==> scrollY > 100.0
      ensures navHidden <==> scrollY > old(lastScroll) && scrollY > 500.0
      ensures lastScroll == scrollY
    {
      navOpaque := scrollY > 100.0;
      navHidden := scrollY > lastScroll && scrollY > 500.0;
      lastScroll := scrollY;
    }

    /** Opens the modal on a project: its texts, its image list, the slider back at the first image. */
    method OpenDetails(d: Details, newImages: seq<string>)
      requires Valid()
      modifies this`details, this`images, this`current, this`slides, this`counter, this`rendered
      modifies this`modalDisplayed, this`modalActive, this`bodyOverflow
      ensures Valid()
      ensures details == d && images == newImages && current == 0
      ensures slides == if hasSlider then ActiveMarks(|newImages|, 0) else []
      ensures hasSlider ==> rendered
      ensures !hasSlider ==> rendered == old(rendered) && counter == old(counter)
      ensures hasSlider && hasCounter ==> counter == CounterText(0, |newImages|)
      ensures !hasCounter ==> counter == old(counter)
      ensures hasModal ==> modalDisplayed && modalActive && bodyOverflow == "hidden"
      ensures !hasModal ==> modalDisplayed == old(modalDisplayed) && modalActive == old(modalActive) && bodyOverflow == old(bodyOverflow)
    {
      details := d;
      images := newImages;
      current := 0;
      RenderSlider();
      if hasModal {
        modalDisplayed := true;
        modalActive := true;
        bodyOverflow := "hidden";
      }
    }

    /** Rebuilds the slider: one image per entry, only the first one active, then refreshes the counter. */
    method RenderSlider()
      requires (if images == [] then current == 0 else current < |images|)
      requires current == 0
      requires toggleActive == menuActive && (rendered ==> hasSlider) && (!hasSlider ==> slides == [])
      modifies this`slides, this`counter, this`rendered
      ensures Valid()
      ensures slides == if hasSlider then ActiveMarks(|images|, 0) else []
      ensures rendered == (hasSlider || old(rendered))
      ensures hasSlider && hasCounter ==> counter == CounterText(0, |images|)
      ensures !(hasSlider && hasCounter) ==> counter == old(counter)
    {
      if !hasSlider {
        return;
      }
      var marks: seq<bool> := [];
      var idx := 0;
      while idx < |images|
        invariant 0 <= idx <= |images|
        invariant marks == ActiveMarks(idx, 0)
      {
        marks := marks + [idx == 0];
        idx := idx + 1;
      }
      slides := marks;
      rendered := true;
      UpdateCounter();
    }

    /** Writes `NN / NN` for the current image into the counter, when the counter exists. */
    method UpdateCounter()
      modifies this`counter
      ensures counter == if hasCounter then CounterText(current, |images|) else old(counter)
    {
      if hasCounter {
        counter := CounterText(current, |images|);
      }
    }

    /** One image back (`step == -1`) or forward (`step == 1`), wrapping around; nothing happens with one image or none. */
    method ChangeImage(step: int)
      requires Valid()
      requires step == 1 || step == -1
      modifies this`current, this`slides, this`counter
      ensures Valid()
      ensures |old(slides)| <= 1 ==> current == old(current) && slides == old(slides) && counter == old(counter)
      ensures |old(slides)| > 1 ==> current == Wrap(old(current), step, |images|)
      ensures |slides| == |old(slides)| && slides == ActiveMarks(|slides|, current)
      ensures |old(slides)| > 1 && hasCounter ==> counter == CounterText(current, |images|)
      ensures !hasCounter ==> counter == old(counter)
    {
      if |slides| <= 1 {
        return;
      }
      slides := slides[current := false];
      current := (current + step + |images|) % |images|;
      slides := slides[current := true];
      UpdateCounter();
    }

    /** Closes the modal and releases page scrolling (the latter even when there is no modal). */
    method CloseDetails()
      requires Valid()
      modifies this`modalActive, this`modalDisplayed, this`bodyOverflow
      ensures Valid()
      ensures hasModal ==> !modalActive && !modalDisplayed
      ensures !hasModal ==> modalActive == old(modalActive) && modalDisplayed == old(modalDisplayed)
      ensures bodyOverflow == ""
    {
      if hasModal {
        modalActive := false;
        modalDisplayed := false;
      }
      bodyOverflow := "";
      assert GalleryConsistent(hasSlider, hasCounter, images, current, slides, rendered, counter);
    }

    /** A click inside the modal closes it only when it landed on the backdrop itself. */
    method OnModalClick(onBackdrop: bool)
      requires Valid()
      modifies this`modalActive, this`modalDisplayed, this`bodyOverflow
      ensures Valid()
      ensures onBackdrop ==> (hasModal ==> !modalActive && !modalDisplayed) && bodyOverflow == ""
      ensures onBackdrop && !hasModal ==> modalActive == old(modalActive) && modalDisplayed == old(modalDisplayed)
      ensures !onBackdrop ==> modalActive == old(modalActive) && modalDisplayed == old(modalDisplayed) && bodyOverflow == old(bodyOverflow)
    {
      if onBackdrop {
        CloseDetails();
      }
    }

    /** `touchstart` on the slider remembers where the touch began. */
    method OnTouchStart(clientX: real)
      modifies this`touchStartX
      ensures touchStartX == clientX
    {
      touchStartX := clientX;
    }

    /** `touchend` on the slider: a swipe of more than 50 px changes the image. */
    method OnTouchEnd(clientX: real)
      requires Valid()
      modifies this`current, this`slides, this`counter
      ensures Valid()
      ensures SwipeStep(clientX - touchStartX) == None ==> current == old(current) && slides == old(slides) && counter == old(counter)
      ensures |old(slides)| <= 1 ==> current == old(current) && slides == old(slides) && counter == old(counter)
      ensures SwipeStep(clientX - touchStartX).Some? && |old(slides)| > 1 ==> current == Wrap(old(current), SwipeStep(clientX - touchStartX).value, |images|)
      ensures |slides| == |old(slides)| && slides == ActiveMarks(|slides|, current)
      ensures SwipeStep(clientX - touchStartX).Some? && |old(slides)| > 1 && hasCounter ==> counter == CounterText(current, |images|)
      ensures !hasCounter ==> counter == old(counter)
    {
      var diff := clientX - touchStartX;
      match SwipeStep(diff)
      case Some(step) => ChangeImage(step);
      case None =>
    }
  }
}
