/** The `useIntersectionObserver` hook (src/hooks/useIntersectionObserver.ts):
    it tracks whether an element is on screen, and latches the first time it
    is, so that sections can reveal themselves once. The browser's observer
    is replaced by the sequence of `isIntersecting` values it reports. */
module IntersectionObserver {

  import opened Optional

  /** The options object; None stands for a property left undefined. */
  datatype Options = Options(threshold: Option<real>, rootMargin: Option<string>, triggerOnce: Option<bool>)

  datatype Resolved = Resolved(threshold: real, rootMargin: string, triggerOnce: bool)

  /** The destructuring defaults: 0.1, "50px" and true. */
  function Resolve(o: Options): (r: Resolved)
    ensures o.threshold.Some? ==> r.threshold == o.threshold.value
    ensures o.threshold.None? ==> r.threshold == 0.1
    ensures o.rootMargin.Some? ==> r.rootMargin == o.rootMargin.value
    ensures o.rootMargin.None? ==> r.rootMargin == "50px"
    ensures o.triggerOnce.Some? ==> r.triggerOnce == o.triggerOnce.value
    ensures o.triggerOnce.None? ==> r.triggerOnce
  {
    Resolved(
      if o.threshold.Some? then o.threshold.value else 0.1,
      if o.rootMargin.Some? then o.rootMargin.value else "50px",
      if o.triggerOnce.Some? then o.triggerOnce.value else true)
  }

  /** Given options override the defaults one by one; an empty options
      object gives exactly the defaults. */
  lemma ResolveDefaults()
    ensures Resolve(Options(None, None, None)) == Resolved(0.1, "50px", true)
  {
  }

  /** The hook's two state values after the observer reported `entries`. */
  datatype Seen = Seen(isIntersecting: bool, hasIntersected: bool)

  function Replay(entries: seq<bool>): (s: Seen)
    ensures entries == [] ==> s == Seen(false, false)
    ensures entries != [] ==> s.isIntersecting == entries[|entries| - 1]
  {
    if entries == [] then Seen(false, false)
    else
      var before := Replay(entries[..|entries| - 1]);
      var e := entries[|entries| - 1];
      Seen(e, before.hasIntersected || e)
  }

  /** The latch is set exactly when some report said "intersecting". */
  lemma {:induction false} LatchMeansSeenOnce(entries: seq<bool>)
    ensures Replay(entries).hasIntersected <==> exists k :: 0 <= k < |entries| && entries[k]
  {
    if entries != [] {
      var init := entries[..|entries| - 1];
      LatchMeansSeenOnce(init);
      if Replay(init).hasIntersected {
        var k :| 0 <= k < |init| && init[k];
        assert entries[k];
      }
      if exists k :: 0 <= k < |entries| && entries[k] {
        var k :| 0 <= k < |entries| && entries[k];
        if k < |entries| - 1 {
          assert init[k];
        }
      }
    }
  }

  /** Once set, the latch stays set whatever is reported next. */
  lemma LatchIsMonotone(entries: seq<bool>, more: seq<bool>)
    requires Replay(entries).hasIntersected
    ensures Replay(entries + more).hasIntersected
  {
    LatchMeansSeenOnce(entries);
    LatchMeansSeenOnce(entries + more);
    var k :| 0 <= k < |entries| && entries[k];
    assert (entries + more)[k];
  }

  /** One component's use of the hook. */
  class Observer {
    const options: Resolved
    /** Whether `elementRef.current` was set when the effect ran; without an
        element no observer is created and nothing is ever reported. */
    const attached: bool
    var isIntersecting: bool
    var hasIntersected: bool
    var hasIntersectedRef: bool
    ghost var reports: seq<bool>
    /** How many times `setHasIntersected(true)` has been called. */
    ghost var latchWrites: nat

    ghost predicate Valid()
      reads this
    {
      && Seen(isIntersecting, hasIntersected) == Replay(reports)
      && hasIntersectedRef == hasIntersected
      && latchWrites == (if hasIntersected then 1 else 0)
      && (!attached ==> reports == [])
    }

    constructor (o: Options, elementPresent: bool)
      ensures Valid()
      ensures options == Resolve(o) && attached == elementPresent
      ensures reports == [] && !isIntersecting && !hasIntersected
    {
      options := Resolve(o);
      attached := elementPresent;
      isIntersecting := false;
      hasIntersected := false;
      hasIntersectedRef := false;
      reports := [];
      latchWrites := 0;
    }

    /** The observer callback for one entry. */
    method Report(entryIsIntersecting: bool)
      requires Valid()
      modifies this
      ensures Valid()
      ensures attached ==> reports == old(reports) + [entryIsIntersecting]
      ensures !attached ==> reports == old(reports) && isIntersecting == old(isIntersecting)
      ensures latchWrites <= 1
    {
      if !attached {
        return;
      }
      isIntersecting := entryIsIntersecting;
      if entryIsIntersecting && !hasIntersectedRef {
        hasIntersectedRef := true;
        hasIntersected := true;
        latchWrites := latchWrites + 1;
      }
      assert (reports + [entryIsIntersecting])[..|reports|] == reports;
      reports := reports + [entryIsIntersecting];
    }

    /** The `hasIntersected` the hook returns: the latch when `triggerOnce`,
        otherwise just the current visibility. */
    function HasIntersected(): (b: bool)
      requires Valid()
      reads this
      ensures options.triggerOnce ==> (b <==> exists k :: 0 <= k < |reports| && reports[k])
      ensures !options.triggerOnce ==> (b <==> |reports| > 0 && reports[|reports| - 1])
    {
      LatchMeansSeenOnce(reports);
      if options.triggerOnce then hasIntersected else isIntersecting
    }
  }
}
