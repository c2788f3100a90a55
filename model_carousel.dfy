/**
  The carousel screen (src/components/ModelCarousel.tsx): a circular index
  over three 3D models, a transition lock that the buttons set and a
  1500 ms timer releases, the slide position handed to the viewer, the
  heading and the link to the featured-model page.

  The timer is an event: `TimerFires` stands for the `setTimeout` callback
  that the effect keyed on `currentIndex` schedules. `timerArmed` records
  whether such a callback is pending; changing `currentIndex` cancels the
  pending one (the effect's cleanup) and schedules a fresh one.
 */
module ModelCarousel {
  import opened JsRuntime

  const Models: seq<string> := [
    "/3DMODELS/modelo1.glb",
    "/3DMODELS/modelo2.glb",
    "/3DMODELS/modelo3.glb"
  ]

  /** Route of the featured-model page with the query key the page reads. */
  const SelectPrefix: string := "/modelo-destaque?modelo="

  datatype SlidePosition = ToCenter | Center

  datatype CarouselState = CarouselState(currentIndex: int, isTransitioning: bool, timerArmed: bool)

  datatype Event = PrevClick | NextClick | TimerFires

  /** What every reachable state satisfies. */
  predicate Inv(s: CarouselState) {
    0 <= s.currentIndex < |Models| && (s.isTransitioning ==> s.timerArmed)
  }

  /** First render: index 1, no transition, and the mount effect's timer pending. */
  function Initial(): (s: CarouselState)
    ensures s.currentIndex == 1 && !s.isTransitioning && s.timerArmed
    ensures Inv(s) && Models[s.currentIndex] == "/3DMODELS/modelo2.glb"
  {
    CarouselState(1, false, true)
  }

  /** The new index arms a fresh timer when it differs from the old one. */
  function MoveTo(s: CarouselState, i: int): CarouselState {
    CarouselState(i, true, s.timerArmed || i != s.currentIndex)
  }

  /** handlePrev */
  function Prev(s: CarouselState): (r: CarouselState)
    ensures s.isTransitioning ==> r == s
    ensures !s.isTransitioning && Inv(s) ==>
      r.currentIndex == (if s.currentIndex == 0 then |Models| - 1 else s.currentIndex - 1)
      && r.isTransitioning && Inv(r)
  {
    if s.isTransitioning then s
    else MoveTo(s, JsRem(s.currentIndex - 1 + |Models|, |Models|))
  }

  /** handleNext */
  function Next(s: CarouselState): (r: CarouselState)
    ensures s.isTransitioning ==> r == s
    ensures !s.isTransitioning && Inv(s) ==>
      r.currentIndex == (if s.currentIndex == |Models| - 1 then 0 else s.currentIndex + 1)
      && r.isTransitioning && Inv(r)
  {
    if s.isTransitioning then s
    else MoveTo(s, JsRem(s.currentIndex + 1, |Models|))
  }

  /** The pending timer's callback, if one is pending: the lock is released. */
  function Timer(s: CarouselState): (r: CarouselState)
    ensures r.currentIndex == s.currentIndex && !r.timerArmed
    ensures s.timerArmed ==> !r.isTransitioning
    ensures Inv(s) ==> Inv(r)
  {
    if s.timerArmed then CarouselState(s.currentIndex, false, false) else s
  }

  function Step(s: CarouselState, e: Event): CarouselState {
    match e
    case PrevClick => Prev(s)
    case NextClick => Next(s)
    case TimerFires => Timer(s)
  }

  function Run(s: CarouselState, events: seq<Event>): CarouselState
    decreases |events|
  {
    if events == [] then s else Run(Step(s, events[0]), events[1..])
  }

  /** getSlidePosition */
  function Slide(s: CarouselState): (p: SlidePosition)
    ensures p == ToCenter <==> s.isTransitioning
    ensures p == Center <==> !s.isTransitioning
  {
    if s.isTransitioning then ToCenter else Center
  }

  /** The path handleSelectModel pushes: the index is zero-based. */
  function SelectUrl(s: CarouselState): string
    requires s.currentIndex >= 0
  {
    SelectPrefix + ShowNat(s.currentIndex)
  }

  /** The heading counts from one. */
  function Heading(s: CarouselState): string
    requires s.currentIndex >= 0
  {
    "Modelo " + ShowNat(s.currentIndex + 1)
  }

  // ---------------------------------------------------------------------
  // Properties
  // ---------------------------------------------------------------------

  lemma StepKeepsInv(s: CarouselState, e: Event)
    requires Inv(s)
    ensures Inv(Step(s, e))
  {
  }

  /** After any sequence of clicks and timer events the index names a model. */
  lemma {:induction false} RunKeepsInv(s: CarouselState, events: seq<Event>)
    requires Inv(s)
    ensures Inv(Run(s, events))
    ensures 0 <= Run(s, events).currentIndex < |Models|
    decreases |events|
  {
    if events != [] {
      StepKeepsInv(s, events[0]);
      RunKeepsInv(Step(s, events[0]), events[1..]);
    }
  }

  lemma ReachableIndexInBounds(events: seq<Event>)
    ensures 0 <= Run(Initial(), events).currentIndex < |Models|
  {
    RunKeepsInv(Initial(), events);
  }

  /** While a transition is running both buttons change nothing at all. */
  lemma {:induction false} LockedClicksIgnored(s: CarouselState, clicks: seq<Event>)
    requires s.isTransitioning
    requires forall k :: 0 <= k < |clicks| ==> clicks[k] != TimerFires
    ensures Run(s, clicks) == s
    decreases |clicks|
  {
    if clicks != [] {
      assert Step(s, clicks[0]) == s;
      LockedClicksIgnored(s, clicks[1..]);
    }
  }

  /** Whenever the lock is held a timer is pending, so the lock is always released. */
  lemma LockIsReleased(s: CarouselState)
    requires Inv(s) && s.isTransitioning
    ensures !Timer(s).isTransitioning && Timer(s).currentIndex == s.currentIndex
  {
  }

  /** Running two event sequences one after the other is running their concatenation. */
  lemma {:induction false} RunAppend(s: CarouselState, xs: seq<Event>, ys: seq<Event>)
    ensures Run(s, xs + ys) == Run(Run(s, xs), ys)
    decreases |xs|
  {
    if xs == [] {
      assert xs + ys == ys;
    } else {
      assert (xs + ys)[0] == xs[0];
      assert (xs + ys)[1..] == xs[1..] + ys;
      RunAppend(Step(s, xs[0]), xs[1..], ys);
    }
  }

  lemma RunOne(s: CarouselState, a: Event)
    ensures Run(s, [a]) == Step(s, a)
  {
    assert [a][1..] == [];
  }

  lemma RunPair(s: CarouselState, a: Event, b: Event)
    ensures Run(s, [a, b]) == Step(Step(s, a), b)
  {
    assert [a, b][1..] == [b];
    RunOne(Step(s, a), b);
  }

  /** next, release, prev comes back to where it started, with the lock held. */
  lemma NextThenPrev(s: CarouselState)
    requires Inv(s) && !s.isTransitioning
    ensures Run(s, [NextClick, TimerFires, PrevClick]).currentIndex == s.currentIndex
  {
    var s2 := Timer(Next(s));
    assert [NextClick, TimerFires, PrevClick] == [NextClick, TimerFires] + [PrevClick];
    RunAppend(s, [NextClick, TimerFires], [PrevClick]);
    RunPair(s, NextClick, TimerFires);
    RunOne(s2, PrevClick);
  }

  /** prev, release, next comes back too. */
  lemma PrevThenNext(s: CarouselState)
    requires Inv(s) && !s.isTransitioning
    ensures Run(s, [PrevClick, TimerFires, NextClick]).currentIndex == s.currentIndex
  {
    var s2 := Timer(Prev(s));
    assert [PrevClick, TimerFires, NextClick] == [PrevClick, TimerFires] + [NextClick];
    RunAppend(s, [PrevClick, TimerFires], [NextClick]);
    RunPair(s, PrevClick, TimerFires);
    RunOne(s2, NextClick);
  }

  /** Three nexts, each followed by its release, go all the way round. */
  lemma FullCircle(s: CarouselState)
    requires Inv(s) && !s.isTransitioning
    ensures Run(s, [NextClick, TimerFires, NextClick, TimerFires, NextClick, TimerFires]) == s.(timerArmed := false)
  {
    var p := [NextClick, TimerFires];
    var s1 := Timer(Next(s));
    var s2 := Timer(Next(s1));
    var s3 := Timer(Next(s2));
    assert [NextClick, TimerFires, NextClick, TimerFires, NextClick, TimerFires] == (p + p) + p;
    RunAppend(s, p + p, p);
    RunAppend(s, p, p);
    RunPair(s, NextClick, TimerFires);
    RunPair(s1, NextClick, TimerFires);
    RunPair(s2, NextClick, TimerFires);
  }

  /** The heading reads back as the one-based position, 1 to 3. */
  lemma HeadingIsOneBased(s: CarouselState)
    requires Inv(s)
    ensures |Heading(s)| > 7 && Heading(s)[..7] == "Modelo "
    ensures ParseInt(Heading(s)[7..]) == Some(s.currentIndex + 1)
    ensures 1 <= s.currentIndex + 1 <= |Models|
  {
    var digits := ShowNat(s.currentIndex + 1);
    var h := Heading(s);
    assert h == "Modelo " + digits;
    SliceAtSeam("Modelo ", digits);
    assert h[7..] == digits;
    assert ParseInt(digits) == Some(s.currentIndex + 1) by {
      ParseIntShowNat(s.currentIndex + 1, []);
      assert digits + [] == digits;
    }
  }

  // ---------------------------------------------------------------------
  // The component
  // ---------------------------------------------------------------------

  class Carousel {
    var currentIndex: int
    var isTransitioning: bool
    var timerArmed: bool
    const models: seq<string>
    /** The paths passed to router.push, oldest first. */
    var pushed: seq<string>

    function State(): CarouselState
      reads this
    {
      CarouselState(currentIndex, isTransitioning, timerArmed)
    }

    ghost predicate Valid()
      reads this
    {
      models == Models && Inv(State())
    }

    constructor ()
      ensures Valid() && State() == Initial() && pushed == []
    {
      currentIndex := 1;
      isTransitioning := false;
      models := Models;
      timerArmed := true;
      pushed := [];
    }

    method HandlePrev()
      requires Valid()
      modifies this
      ensures Valid() && State() == Prev(old(State())) && pushed == old(pushed)
    {
      if !isTransitioning {
        isTransitioning := true;
        var prev := currentIndex;
        currentIndex := JsRem(prev - 1 + |models|, |models|);
        if currentIndex != prev {
          timerArmed := true;
        }
      }
    }

    method HandleNext()
      requires Valid()
      modifies this
      ensures Valid() && State() == Next(old(State())) && pushed == old(pushed)
    {
      if !isTransitioning {
        isTransitioning := true;
        var prev := currentIndex;
        currentIndex := JsRem(prev + 1, |models|);
        if currentIndex != prev {
          timerArmed := true;
        }
      }
    }

    method TimerFires()
      requires Valid()
      modifies this
      ensures Valid() && State() == Timer(old(State())) && pushed == old(pushed)
    {
      if timerArmed {
        isTransitioning := false;
        timerArmed := false;
      }
    }

    /** getSlidePosition */
    function SlidePosition(): (p: SlidePosition)
      reads this
      ensures p == ToCenter <==> isTransitioning
    {
      Slide(State())
    }

    /** modelPath handed to the viewer. */
    function ModelPath(): (path: string)
      reads this
      requires Valid()
      ensures path in Models && path == Models[currentIndex]
    {
      models[currentIndex]
    }

    method HandleSelectModel()
      requires Valid()
      modifies this
      ensures Valid() && State() == old(State())
      ensures pushed == old(pushed) + [SelectUrl(State())]
    {
      pushed := pushed + [SelectPrefix + ShowNat(currentIndex)];
    }
  }
}
