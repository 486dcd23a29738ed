/**
 * The scroll tracker: finds the scrollable elements of a page, keeps a scroll
 * listener on the window and on each of them, maintains the "scrolled away
 * from top" signal and scrolls everything back to the top on request.
 *
 * The browser is replaced by plain state: the window's vertical offset and the
 * document as a sequence of element objects whose layout and scroll offset the
 * page may change. Listener registrations, the rebind handlers and the
 * mutation-observer handle are fields of the tracker, so that what the source
 * keeps in module-level variables and what it hands to the browser are both
 * visible to the proofs.
 */
module ScrollManager {
  import opened Wrappers

  /** The offset above which the page counts as scrolled away from the top. */
  const ResetScrollVisibleThreshold: int := 0

  /** A DOM element as the tracker sees it. */
  class Element {
    var overflowY: string   // the computed overflow-y style
    var scrollHeight: int
    var clientHeight: int
    var scrollTop: int
    const hasScrollTo: bool // whether the element offers a scrollTo function

    constructor (overflowY: string, scrollHeight: int, clientHeight: int, scrollTop: int, hasScrollTo: bool)
      ensures this.overflowY == overflowY && this.scrollHeight == scrollHeight
      ensures this.clientHeight == clientHeight && this.scrollTop == scrollTop
      ensures this.hasScrollTo == hasScrollTo
    {
      this.overflowY := overflowY;
      this.scrollHeight := scrollHeight;
      this.clientHeight := clientHeight;
      this.scrollTop := scrollTop;
      this.hasScrollTo := hasScrollTo;
    }

    /** The largest offset the element's content allows. */
    function MaxScrollTop(): int
      reads this
    {
      if scrollHeight > clientHeight then scrollHeight - clientHeight else 0
    }

    /**
     * The element's scrollTo command. The smooth animation is modelled as
     * reaching its destination at once; the destination is clamped to the
     * scrollable range.
     */
    method ScrollTo(top: int)
      requires hasScrollTo
      modifies this`scrollTop
      ensures 0 <= scrollTop <= MaxScrollTop()
      ensures top <= 0 ==> scrollTop == 0
      ensures 0 <= top <= MaxScrollTop() ==> scrollTop == top
    {
      if top <= 0 {
        scrollTop := 0;
      } else if top <= MaxScrollTop() {
        scrollTop := top;
      } else {
        scrollTop := MaxScrollTop();
      }
    }
  }

  /** Where a scroll listener can be registered. */
  datatype Target = WindowTarget | ElementTarget(el: Element)

  /** The window events on which the listeners are rebuilt. */
  datatype WindowEvent = Resize | OrientationChange

  /** A change to the document that a mutation observer may report. */
  datatype Mutation = ChildListChange | AttributeChange(name: string)

  /** The options an observer is started with. */
  datatype ObserverConfig = ObserverConfig(subtree: bool, childList: bool, attributes: bool, attributeFilter: seq<string>)

  /** The tracker watches the whole document for structure, style and class changes. */
  const DocumentObserver: ObserverConfig := ObserverConfig(true, true, true, ["style", "class"])

  /** Whether an observer started with `config` reports `m`. */
  predicate Observes(config: ObserverConfig, m: Mutation)
  {
    match m
    case ChildListChange => config.childList
    case AttributeChange(name) => config.attributes && name in config.attributeFilter
  }

  /** The overflow-y values under which an element may scroll. */
  predicate CanOverflow(overflowY: string)
  {
    overflowY == "auto" || overflowY == "scroll" || overflowY == "overlay"
  }

  /** An element the tracker listens to: it may scroll and its content overflows. */
  predicate Scrollable(e: Element)
    reads e
  {
    CanOverflow(e.overflowY) && e.scrollHeight > e.clientHeight
  }

  /** `s` is `t` with some elements dropped and the rest kept in order. */
  ghost predicate IsSubsequence<T>(s: seq<T>, t: seq<T>)
    decreases |t|
  {
    if s == [] then true
    else if t == [] then false
    else (s[0] == t[0] && IsSubsequence(s[1..], t[1..])) || IsSubsequence(s, t[1..])
  }

  /** No element appears twice. */
  ghost predicate Distinct<T>(s: seq<T>)
  {
    forall i, j :: 0 <= i < j < |s| ==> s[i] != s[j]
  }

  /**
   * The scan of the document: the scrollable elements, each occurrence kept,
   * every other element dropped, in document order.
   */
  function ScanDocument(doc: seq<Element>): (r: seq<Element>)
    reads doc
    ensures forall e :: e in r ==> e in doc && Scrollable(e)
    ensures IsSubsequence(r, doc)
  {
    if doc == [] then []
    else if Scrollable(doc[0]) then
      assert doc == [doc[0]] + doc[1..];
      [doc[0]] + ScanDocument(doc[1..])
    else
      assert doc == [doc[0]] + doc[1..];
      ScanDocument(doc[1..])
  }

  /** The scan keeps every occurrence of a scrollable element and none of any other. */
  lemma {:induction false} ScanKeepsEveryOccurrence(doc: seq<Element>, e: Element)
    ensures multiset(ScanDocument(doc))[e] == if Scrollable(e) then multiset(doc)[e] else 0
  {
    if doc != [] {
      ScanKeepsEveryOccurrence(doc[1..], e);
      assert doc == [doc[0]] + doc[1..];
      assert multiset(doc) == multiset{doc[0]} + multiset(doc[1..]);
    }
  }

  /** A document without repeated elements yields a tracked list without repeats. */
  lemma {:induction false} ScanKeepsDistinct(doc: seq<Element>)
    requires Distinct(doc)
    ensures Distinct(ScanDocument(doc))
  {
    if doc != [] {
      ScanKeepsDistinct(doc[1..]);
      if Scrollable(doc[0]) {
        var rest := ScanDocument(doc[1..]);
        assert doc[0] !in doc[1..];
        assert doc[0] !in rest;
        assert ScanDocument(doc) == [doc[0]] + rest;
      }
    }
  }

  /** Scanning the scanned list changes nothing: every tracked element is scrollable. */
  lemma {:induction false} ScanIdempotent(doc: seq<Element>)
    ensures ScanDocument(ScanDocument(doc)) == ScanDocument(doc)
  {
    if doc != [] {
      ScanIdempotent(doc[1..]);
      if Scrollable(doc[0]) {
        var rest := ScanDocument(doc[1..]);
        assert ScanDocument(doc) == [doc[0]] + rest;
        assert ([doc[0]] + rest)[1..] == rest;
      }
    }
  }

  /** True iff the window or some listed element is scrolled past the threshold. */
  predicate ScrolledAway(windowOffset: int, els: seq<Element>)
    reads els
  {
    windowOffset > ResetScrollVisibleThreshold ||
    exists i :: 0 <= i < |els| && els[i].scrollTop > ResetScrollVisibleThreshold
  }

  /** The listener targets of a list of elements. */
  function ElementTargets(els: seq<Element>): set<Target>
  {
    set e | e in els :: ElementTarget(e)
  }

  /** The state the tracker keeps, together with the parts of the browser it acts on. */
  class Tracker {
    // the browser
    var windowOffset: nat
    var document: seq<Element>
    // the tracker's own state
    var tracked: seq<Element>
    var resetVisible: bool
    var observer: Option<ObserverConfig>
    // what the tracker has registered with the browser
    var scrollListeners: set<Target>
    var rebindListeners: set<WindowEvent>
    // whether the component is mounted; the model covers one mount at a time
    ghost var mounted: bool

    /**
     * Every scroll listener sits on the window or on a tracked element; the
     * rebind handlers are registered and an observer may run only while mounted.
     */
    ghost predicate Valid()
      reads this
    {
      scrollListeners <= {WindowTarget} + ElementTargets(tracked) &&
      (mounted ==> rebindListeners == {Resize, OrientationChange}) &&
      (!mounted ==> rebindListeners == {} && observer == None)
    }

    /** The module's initial state: nothing tracked, nothing registered, the signal off. */
    constructor (windowOffset: nat, document: seq<Element>)
      ensures Valid()
      ensures this.windowOffset == windowOffset && this.document == document
      ensures tracked == [] && !resetVisible && observer == None
      ensures scrollListeners == {} && rebindListeners == {} && !mounted
    {
      this.windowOffset := windowOffset;
      this.document := document;
      tracked := [];
      resetVisible := false;
      observer := None;
      scrollListeners := {};
      rebindListeners := {};
      mounted := false;
    }

    /**
     * The scroll handler: the window is checked first, then each tracked
     * element in order, and the first one past the threshold settles it.
     */
    method OnAnyScroll()
      modifies this`resetVisible
      ensures resetVisible == ScrolledAway(windowOffset, tracked)
    {
      if windowOffset > ResetScrollVisibleThreshold {
        resetVisible := true;
        return;
      }
      for i := 0 to |tracked|
        invariant forall j :: 0 <= j < i ==> tracked[j].scrollTop <= ResetScrollVisibleThreshold
      {
        if tracked[i].scrollTop > ResetScrollVisibleThreshold {
          resetVisible := true;
          return;
        }
      }
      resetVisible := false;
    }

    /** Removes the window's and every tracked element's scroll listener and forgets the list. */
    method Unbind()
      requires Valid()
      modifies this`scrollListeners, this`tracked
      ensures Valid()
      ensures tracked == [] && scrollListeners == {}
    {
      scrollListeners := scrollListeners - {WindowTarget};
      var els := tracked;
      if |els| > 0 {
        for i := 0 to |els|
          invariant scrollListeners == old(scrollListeners) - {WindowTarget} - ElementTargets(els[..i])
        {
          assert els[..i + 1] == els[..i] + [els[i]];
          scrollListeners := scrollListeners - {ElementTarget(els[i])};
        }
        assert els[..|els|] == els;
      }
      tracked := [];
    }

    /**
     * Rebuilds everything from a fresh scan: the tracked list, one listener on
     * the window and on each scrollable element, and the signal.
     */
    method Bind()
      requires Valid()
      modifies this`scrollListeners, this`tracked, this`resetVisible
      ensures Valid()
      ensures tracked == ScanDocument(document)
      ensures scrollListeners == {WindowTarget} + ElementTargets(tracked)
      ensures resetVisible == ScrolledAway(windowOffset, tracked)
    {
      Unbind();
      var els := ScanDocument(document);
      tracked := els;
      scrollListeners := scrollListeners + {WindowTarget};
      for i := 0 to |els|
        invariant tracked == els
        invariant scrollListeners == {WindowTarget} + ElementTargets(els[..i])
      {
        assert els[..i + 1] == els[..i] + [els[i]];
        scrollListeners := scrollListeners + {ElementTarget(els[i])};
      }
      assert els[..|els|] == els;
      OnAnyScroll();
    }

    /** Two binds in a row leave the state one bind leaves: nothing accumulates. */
    method BindTwice()
      requires Valid()
      modifies this`scrollListeners, this`tracked, this`resetVisible
      ensures Valid()
      ensures tracked == ScanDocument(document)
      ensures scrollListeners == {WindowTarget} + ElementTargets(tracked)
      ensures resetVisible == ScrolledAway(windowOffset, tracked)
    {
      Bind();
      Bind();
    }

    /** The elements a reset scrolls: the tracked list, or a fresh scan when it is empty. */
    function ResetTargets(): (targets: seq<Element>)
      reads this, document
      ensures forall e :: e in targets ==> e in tracked || e in document
      ensures |tracked| > 0 ==> targets == tracked
      ensures |tracked| == 0 ==> targets == ScanDocument(document)
    {
      if |tracked| > 0 then tracked else ScanDocument(document)
    }

    /**
     * Scrolls the window and every target to the top, then re-evaluates the
     * signal. Scroll commands take effect at once in this model.
     */
    method ResetScroll()
      modifies this`windowOffset, this`resetVisible, tracked, document
      ensures windowOffset == 0 && !resetVisible
      ensures forall e :: e in old(ResetTargets()) ==> e.scrollTop == 0
      ensures forall e :: e in old(tracked) + old(document) && e !in old(ResetTargets()) ==>
        e.scrollTop == old(e.scrollTop)
      ensures forall e :: e in old(tracked) + old(document) ==>
        e.overflowY == old(e.overflowY) && e.scrollHeight == old(e.scrollHeight) && e.clientHeight == old(e.clientHeight)
    {
      windowOffset := 0;
      var targets := ResetTargets();
      for i := 0 to |targets|
        invariant windowOffset == 0
        invariant forall j :: 0 <= j < |targets| ==> targets[j] in old(tracked) || targets[j] in old(document)
        invariant forall j :: 0 <= j < i ==> targets[j].scrollTop == 0
        invariant forall e :: e in old(tracked) + old(document) && e !in targets[..i] ==>
          e.scrollTop == old(e.scrollTop)
        invariant forall e :: e in old(tracked) + old(document) ==>
          e.overflowY == old(e.overflowY) && e.scrollHeight == old(e.scrollHeight) && e.clientHeight == old(e.clientHeight)
      {
        var el := targets[i];
        if el.hasScrollTo {
          el.ScrollTo(0);
        } else {
          el.scrollTop := 0;
        }
        assert targets[..i + 1] == targets[..i] + [el];
      }
      assert targets[..|targets|] == targets;
      OnAnyScroll();
    }

    /** Starts the mutation observer when the environment offers one. */
    method SetupMutationObserver(observerAvailable: bool)
      modifies this`observer
      ensures observer == if observerAvailable then Some(DocumentObserver) else old(observer)
    {
      if !observerAvailable {
        return;
      }
      observer := Some(DocumentObserver);
    }

    /** Mount: bind, rebind on resize and orientation change, watch the document. */
    method Mount(observerAvailable: bool)
      requires Valid() && !mounted
      modifies this`scrollListeners, this`tracked, this`resetVisible, this`rebindListeners, this`observer, this`mounted
      ensures Valid() && mounted
      ensures tracked == ScanDocument(document)
      ensures scrollListeners == {WindowTarget} + ElementTargets(tracked)
      ensures resetVisible == ScrolledAway(windowOffset, tracked)
      ensures rebindListeners == {Resize, OrientationChange}
      ensures observer == if observerAvailable then Some(DocumentObserver) else None
    {
      Bind();
      rebindListeners := rebindListeners + {Resize};
      rebindListeners := rebindListeners + {OrientationChange};
      SetupMutationObserver(observerAvailable);
      mounted := true;
    }

    /** Unmount: unbind, drop both rebind handlers, disconnect and forget the observer. */
    method Unmount()
      requires Valid()
      modifies this`scrollListeners, this`tracked, this`rebindListeners, this`observer, this`mounted
      ensures Valid() && !mounted
      ensures tracked == [] && scrollListeners == {}
      ensures rebindListeners == {}
      ensures observer == None
      ensures resetVisible == old(resetVisible)
    {
      Unbind();
      rebindListeners := rebindListeners - {Resize};
      rebindListeners := rebindListeners - {OrientationChange};
      observer := None;
      mounted := false;
    }

    /** The browser delivers a scroll event on `t`: only a registered listener runs. */
    method DeliverScroll(t: Target)
      modifies this`resetVisible
      ensures t in scrollListeners ==> resetVisible == ScrolledAway(windowOffset, tracked)
      ensures t !in scrollListeners ==> resetVisible == old(resetVisible)
    {
      if t in scrollListeners {
        OnAnyScroll();
      }
    }

    /** The browser delivers a resize or orientation change: a registered handler rebinds. */
    method DeliverWindowEvent(ev: WindowEvent)
      requires Valid()
      modifies this`scrollListeners, this`tracked, this`resetVisible
      ensures Valid()
      ensures ev in rebindListeners ==>
        (tracked == ScanDocument(document) &&
         scrollListeners == {WindowTarget} + ElementTargets(tracked) &&
         resetVisible == ScrolledAway(windowOffset, tracked))
      ensures ev !in rebindListeners ==> unchanged(this)
    {
      if ev in rebindListeners {
        Bind();
      }
    }

    /** The document changed: a running observer that reports the change rebinds. */
    method DeliverMutation(m: Mutation)
      requires Valid()
      modifies this`scrollListeners, this`tracked, this`resetVisible
      ensures Valid()
      ensures observer.Some? && Observes(observer.value, m) ==>
        (tracked == ScanDocument(document) &&
         scrollListeners == {WindowTarget} + ElementTargets(tracked) &&
         resetVisible == ScrolledAway(windowOffset, tracked))
      ensures !(observer.Some? && Observes(observer.value, m)) ==> unchanged(this)
    {
      if observer.Some? && Observes(observer.value, m) {
        Bind();
      }
    }
  }
}
