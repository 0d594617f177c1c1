/**
 * The home page (pages/Home.tsx): the paging of the projects carousel and the
 * state transitions of the AI slogan generator around its service call.
 */
module HomePage {
  import opened Wrappers
  import opened JsText
  import opened ProjectData

  /** One project per slide on a viewport at most 768 pixels wide, three otherwise. */
  function ItemsPerSlide(innerWidth: int): (r: nat)
    ensures r == 1 || r == 3
    ensures r == 1 <==> innerWidth <= 768
  {
    if innerWidth <= 768 then 1 else 3
  }

  /** `Math.ceil(count / itemsPerSlide)`: the fewest slides that hold `count` projects. */
  function TotalSlides(count: nat, innerWidth: int): (t: nat)
    ensures t * ItemsPerSlide(innerWidth) >= count
    ensures t == 0 || (t - 1) * ItemsPerSlide(innerWidth) < count
    ensures t == 0 <==> count == 0
  {
    var perSlide := ItemsPerSlide(innerWidth);
    (count + perSlide - 1) / perSlide
  }

  /**
   * The auto-advance step: from the last slide back to the first, otherwise
   * one on. An index inside the slide range stays inside it and every slide
   * is visited in turn; an index at or past the slide count (after a widening
   * resize shrinks the count, or when there are no projects) is never brought
   * back, each step moving it one further.
   */
  function Advance(index: int, total: nat): (r: int)
    ensures 0 <= index < total ==> 0 <= r < total && r == (index + 1) % total
    ensures index >= total ==> r == index + 1
  {
    if index == total - 1 then 0 else index + 1
  }

  lemma MulSucc(k: int, n: int)
    ensures (k + 1) * n == k * n + n
  {
  }

  /**
   * `r` is the window of `items` starting at `start` and at most `width`
   * long: the items from `start` on, in order, and a full window when the
   * list holds that many.
   */
  predicate IsWindow<T(==)>(items: seq<T>, start: nat, width: nat, r: seq<T>) {
    && |r| <= width
    && (forall j :: 0 <= j < |r| ==> start + j < |items| && r[j] == items[start + j])
    && (start + width <= |items| ==> |r| == width)
  }

  /** `slice(start, start + width)` on any list is such a window. */
  lemma SliceWindow<T>(items: seq<T>, start: nat, width: nat)
    ensures IsWindow(items, start, width, Slice(items, start, start + width))
  {
  }

  /** The projects of slide `k`: `slice(k * perSlide, (k + 1) * perSlide)`. */
  function Slide<T(==)>(items: seq<T>, k: nat, perSlide: nat): (r: seq<T>)
    ensures IsWindow(items, k * perSlide, perSlide, r)
  {
    var start := k * perSlide;
    MulSucc(k, perSlide);
    SliceWindow(items, start, perSlide);
    Slice(items, start, start + perSlide)
  }

  /** Slides `0 .. count - 1` laid out one after another. */
  function Slides<T(==)>(items: seq<T>, perSlide: nat, count: nat): (r: seq<T>)
    ensures |r| <= count * perSlide
    ensures count * perSlide <= |items| ==> |r| == count * perSlide
  {
    if count == 0 then []
    else
      MulSucc(count - 1, perSlide);
      Slides(items, perSlide, count - 1) + Slide(items, count - 1, perSlide)
  }

  /** How far into the list the first `count` slides reach. */
  function Reach(count: nat, perSlide: nat, length: nat): nat {
    if count * perSlide < length then count * perSlide else length
  }

  /** The first `count` slides show exactly the first `count * perSlide` projects, in order. */
  lemma {:induction false} SlidesArePrefix<T>(items: seq<T>, perSlide: nat, count: nat)
    ensures Slides(items, perSlide, count) == items[..Reach(count, perSlide, |items|)]
  {
    if count > 0 {
      SlidesArePrefix(items, perSlide, count - 1);
      var before := (count - 1) * perSlide;
      MulSucc(count - 1, perSlide);
      var a := Reach(count - 1, perSlide, |items|);
      var b := Reach(count, perSlide, |items|);
      assert b == if before + perSlide < |items| then before + perSlide else |items|;
      var slide := Slide(items, count - 1, perSlide);
      assert slide == Slice(items, before, before + perSlide);
      assert slide == items[a..b];
      assert items[..a] + items[a..b] == items[..b];
    }
  }

  /** All the slides of the carousel together show every project once, in list order. */
  lemma SlidesCoverAll<T>(items: seq<T>, innerWidth: int)
    ensures Slides(items, ItemsPerSlide(innerWidth), TotalSlides(|items|, innerWidth)) == items
  {
    var perSlide, total := ItemsPerSlide(innerWidth), TotalSlides(|items|, innerWidth);
    SlidesArePrefix(items, perSlide, total);
    assert Reach(total, perSlide, |items|) == |items|;
  }

  /**
   * The `ProjectsCarousel` state. Nothing re-renders the carousel when the
   * window is resized, so its slide count and the pending timer callback both
   * belong to the width read by the last render, `renderedWidth`, which can lag
   * behind the window's current width `innerWidth`.
   */
  class Carousel {
    const projects: seq<Project>
    var currentIndex: int
    var innerWidth: int
    var renderedWidth: int

    constructor(projects: seq<Project>, innerWidth: int)
      ensures this.projects == projects && currentIndex == 0
      ensures this.innerWidth == innerWidth && renderedWidth == innerWidth
    {
      this.projects := projects;
      currentIndex := 0;
      this.innerWidth := innerWidth;
      renderedWidth := innerWidth;
    }

    /** `totalSlides` of the last render, which the pending timer callback holds. */
    function Total(): nat
      reads this
    {
      TotalSlides(|projects|, renderedWidth)
    }

    /**
     * `visibleProjects` of the last render, the same `slice` for the current
     * index: for an index that is not negative, the slide it points at
     * (empty past the end).
     */
    function VisibleProjects(): (r: seq<Project>)
      reads this
      ensures 0 <= currentIndex ==> r == Slide(projects, currentIndex, ItemsPerSlide(renderedWidth))
    {
      var perSlide := ItemsPerSlide(renderedWidth);
      MulSucc(currentIndex, perSlide);
      Slice(projects, currentIndex * perSlide, (currentIndex + 1) * perSlide)
    }

    /** A render after a state change reads the window's width afresh. */
    method Render()
      modifies this`renderedWidth
      ensures renderedWidth == innerWidth
    {
      renderedWidth := innerWidth;
    }

    /**
     * The 4-second timer callback: it advances over the slide count it was
     * created with. A new index renders at the current width; setting the
     * index it already has renders nothing.
     */
    method Tick()
      modifies this`currentIndex, this`renderedWidth
      ensures currentIndex == Advance(old(currentIndex), old(Total()))
      ensures 0 <= old(currentIndex) < old(Total()) ==> 0 <= currentIndex < old(Total())
      ensures renderedWidth == if currentIndex != old(currentIndex) then innerWidth else old(renderedWidth)
    {
      var next := Advance(currentIndex, Total());
      if next != currentIndex {
        currentIndex := next;
        Render();
      }
    }

    /** A dot button: jump straight to slide `slideIndex`, rendering when that changes the index. */
    method GoToSlide(slideIndex: int)
      modifies this`currentIndex, this`renderedWidth
      ensures currentIndex == slideIndex
      ensures renderedWidth == if slideIndex != old(currentIndex) then innerWidth else old(renderedWidth)
    {
      if slideIndex != currentIndex {
        currentIndex := slideIndex;
        Render();
      }
    }

    /** A resize changes the window's width only; the carousel is not rendered again. */
    method Resize(width: int)
      modifies this`innerWidth
      ensures innerWidth == width
    {
      innerWidth := width;
    }
  }

  /** What the generator service returns on success. */
  datatype AiResult = AiResult(slogans: seq<string>, seoDescription: string)

  /** How the service call ended: a result, or a thrown error with its `message` (if any). */
  datatype ServiceOutcome = Generated(result: AiResult) | Failed(message: Option<string>)

  /** The error texts the generator shows, as tags. */
  datatype AiError =
    | MissingInput               // 'Vui lòng nhập đầy đủ Tên thương hiệu và Lĩnh vực!'
    | ServiceMessage(text: string)  // the thrown error's own message
    | GenerationFailed           // 'Có lỗi xảy ra khi tạo nội dung.'

  /** `err.message || fallback`: a missing or empty message falls back to the generic text. */
  function ErrorFor(message: Option<string>): (e: AiError)
    ensures e.ServiceMessage? <==> message.Some? && message.value != ""
    ensures e.ServiceMessage? ==> e == ServiceMessage(message.value)
    ensures !e.ServiceMessage? ==> e == GenerationFailed
  {
    if message.Some? && message.value != "" then ServiceMessage(message.value) else GenerationFailed
  }

  /** The `AIGenerator` state. */
  class AiGenerator {
    var brandName: string
    var industry: string
    var isLoading: bool
    var result: Option<AiResult>
    var error: Option<AiError>

    constructor()
      ensures brandName == "" && industry == "" && !isLoading && result == None && error == None
    {
      brandName, industry := "", "";
      isLoading := false;
      result, error := None, None;
    }

    method SetBrandName(text: string)
      modifies this`brandName
      ensures brandName == text
    {
      brandName := text;
    }

    method SetIndustry(text: string)
      modifies this`industry
      ensures industry == text
    {
      industry := text;
    }

    /**
     * `handleGenerate` up to the service call: a missing brand name or
     * industry sets the error and stops; otherwise loading starts with the
     * result and error cleared, and `started` says the service is called.
     */
    method Generate() returns (started: bool)
      modifies this`isLoading, this`result, this`error
      ensures started <==> brandName != "" && industry != ""
      ensures !started ==> error == Some(MissingInput) && isLoading == old(isLoading) && result == old(result)
      ensures started ==> isLoading && result == None && error == None
    {
      if brandName == "" || industry == "" {
        error := Some(MissingInput);
        return false;
      }
      isLoading := true;
      result := None;
      error := None;
      started := true;
    }

    /** The continuation after the service call: store the result or the error, then stop loading. */
    method Settle(outcome: ServiceOutcome)
      modifies this`isLoading, this`result, this`error
      ensures outcome.Generated? ==> result == Some(outcome.result) && error == old(error)
      ensures outcome.Failed? ==> error == Some(ErrorFor(outcome.message)) && result == old(result)
      ensures !isLoading
    {
      match outcome {
      case Generated(r) =>
        result := Some(r);
      case Failed(message) =>
        error := Some(ErrorFor(message));
      }
      isLoading := false;
    }
  }
}
