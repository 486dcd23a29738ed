# Scroll tracker and theme manager, verified in Dafny

This project models two small pieces of state-keeping UI logic from a browser
single-page application. Each one is proved against a specification.

- **The scroll tracker** (`scroll_manager.dfy`, module `ScrollManager`). It finds the page's
  scrollable elements. An element is scrollable when its computed `overflow-y` is `auto`,
  `scroll` or `overlay` and its `scrollHeight` exceeds its `clientHeight`. The tracker keeps
  one passive scroll listener on the window and one on each scrollable element. It keeps the
  "scrolled away from top" signal up to date. Its reset action scrolls the window and every
  target back to offset 0. The page rebinds everything on mount, on resize, on orientation
  change and on every reported DOM mutation, and tears everything down on unmount.
- **The theme manager** (`theme_manager.dfy`, module `ThemeManager`). It holds a fixed map
  from six personality traits to `{dark, medium, light}` palettes and one mutable current
  trait. It applies an asymmetric selection rule, reads the stored trait once at start-up,
  and derives the palette of the current trait.

The browser becomes plain state:
- Each DOM element is an `Element` object with mutable `overflowY`, `scrollHeight`,
  `clientHeight` and `scrollTop`, and a fixed `hasScrollTo`.
- The document is a sequence of such objects.
- The window is a single non-negative offset.
- Listener registrations are sets of targets (the window, or an element). The browser
  ignores a second registration of the same listener, so a set matches its behaviour.
- The mutation observer handle is an `Option` of the options it was started with.

The module-level variables of the scroll tracker are fields of one `Tracker` object. The
current trait is the one field of a `Theme` object. Persistent storage is an input to
initialisation: `None` when the environment has no storage, otherwise its key-value contents.

The central invariant of the tracker is `Tracker.Valid()`: every registered scroll listener
sits on the window or on a tracked element. It is what lets `Unbind` remove every listener by
walking only the tracked list. `Bind` therefore ends with exactly one listener on the window
and one on each freshly scanned element, and none left on an element that stopped being
scrollable. The central invariant of the theme is `Theme.Valid()`: the current trait is a key
of the palette map.

## Model

| member | source | states |
|---|---|---|
| `ScrollManager.ScanDocument` | app/composables/scroll_manager.js:8-19 | the scan keeps only scrollable elements of the document (overflow-y auto, scroll or overlay and content taller than the box), and its result is a subsequence of the document, so document order is kept |
| `ScrollManager.ScanKeepsEveryOccurrence` | app/composables/scroll_manager.js:10-18 | every occurrence of a scrollable element is kept and every other element is dropped (multiset count), so no scrollable element is missed |
| `ScrollManager.ScanKeepsDistinct` | app/composables/scroll_manager.js:9-10 | a document without repeated elements (as a query of the document returns) gives a tracked list that holds each element once |
| `ScrollManager.ScanIdempotent` | app/composables/scroll_manager.js:8-19 | rescanning the scanned list returns it unchanged: everything tracked is scrollable |
| `ScrollManager.Element.ScrollTo` | app/composables/scroll_manager.js:71-72 | an element's scrollTo, taken as immediate: the offset lands in the scrollable range, and a request for top 0 gives offset 0 |
| `ScrollManager.Tracker.constructor` | app/composables/scroll_manager.js:3-6 | the initial module state: empty tracked list, signal false, no observer, nothing registered |
| `ScrollManager.Tracker.OnAnyScroll` | app/composables/scroll_manager.js:21-35 | afterwards the signal is true iff the window offset or some tracked element's scrollTop exceeds the threshold 0, and false otherwise; nothing else changes |
| `ScrollManager.Tracker.Unbind` | app/composables/scroll_manager.js:47-59 | afterwards the tracked list is empty and no scroll listener remains, on the window or on any element; removal cannot fail |
| `ScrollManager.Tracker.Bind` | app/composables/scroll_manager.js:37-45 | afterwards the tracked list is a fresh scan, the listeners are exactly the window plus the tracked elements, and the signal agrees with the current offsets; nothing here depends on the state before the call |
| `ScrollManager.Tracker.BindTwice` | app/composables/scroll_manager.js:37-45 | binding twice on an unchanged document leaves the same state as binding once: listeners do not accumulate |
| `ScrollManager.Tracker.ResetTargets` | app/composables/scroll_manager.js:66-68 | the reset targets are the tracked list when it is non-empty, and exactly a fresh scan of the document when it is empty |
| `ScrollManager.Tracker.ResetScroll` | app/composables/scroll_manager.js:61-79 | the window offset and every target's scrollTop become 0 (through scrollTo when the element has it, by direct assignment otherwise), the signal ends false, and non-target offsets, layout, the tracked list and the listeners are unchanged |
| `ScrollManager.Tracker.SetupMutationObserver` | app/composables/scroll_manager.js:81-92 | an observer of structure and of style and class attributes over the whole document is started only when the capability exists; otherwise the handle is left as it was |
| `ScrollManager.Tracker.Mount` | app/composables/scroll_manager.js:95-101 | from the unmounted state, mount binds (with Bind's guarantees), registers exactly the resize and orientationchange rebind handlers, and sets the observer when the capability exists and leaves none otherwise |
| `ScrollManager.Tracker.Unmount` | app/composables/scroll_manager.js:103-109 | unmount leaves no tracked element, no scroll listener, no rebind handler and no observer handle; the signal keeps its value |
| `ScrollManager.Tracker.DeliverScroll` | app/composables/scroll_manager.js:40-42 | a scroll event runs the handler only on a registered target; after Unbind no scroll event changes the signal |
| `ScrollManager.Tracker.DeliverWindowEvent` | app/composables/scroll_manager.js:98-99 | a resize or orientation change rebinds (with Bind's guarantees) exactly when its handler is registered, and changes nothing otherwise |
| `ScrollManager.Tracker.DeliverMutation` | app/composables/scroll_manager.js:83-91 | a DOM change rebinds exactly when a running observer reports it (child-list changes, or changes to the style or class attribute), and changes nothing otherwise |
| `ThemeManager.PalettesHaveSixTraits` | app/composables/theme_manager.js:5-12 | the palette map has exactly six keys, `default` among them |
| `ThemeManager.SelectedTrait` | app/composables/theme_manager.js:18-24 | selecting a name leaves a key of the map current: the name itself when it is known, `default` when it is not |
| `ThemeManager.SelectionWritesIffChanges` | app/composables/theme_manager.js:19-23 | from a known current trait, the source's two guards write the field exactly when the selected value differs from the current one |
| `ThemeManager.SelectingCurrentChangesNothing` | app/composables/theme_manager.js:19 | selecting the already-current trait keeps it and performs no write |
| `ThemeManager.SelectionsKeepKnownTrait` | app/composables/theme_manager.js:14-24 | starting from a known trait (such as the initial `default`), any sequence of selections ends on a key of the map |
| `ThemeManager.LastSelectionWins` | app/composables/theme_manager.js:18-24 | after a non-empty sequence of selections, the current trait depends only on the last name selected |
| `ThemeManager.SelectionIdempotent` | app/composables/theme_manager.js:18-24 | selecting the same name twice gives the state of selecting it once, and the second call writes nothing |
| `ThemeManager.StartupTrait` | app/composables/theme_manager.js:26-35 | without storage the current trait is unchanged; with a stored known trait that trait becomes current; with the key absent or an unknown value, `default` becomes current |
| `ThemeManager.PaletteFor` | app/composables/theme_manager.js:37-39 | the palette is the trait's own palette when the trait is known, and the `default` palette otherwise |
| `ThemeManager.Theme.constructor` | app/composables/theme_manager.js:14 | the current trait starts as `default`, a key of the map |
| `ThemeManager.Theme.SelectTrait` | app/composables/theme_manager.js:18-24 | the current trait becomes SelectedTrait(name) and stays a key of the map; the field keeps its old value exactly when neither guard fires |
| `ThemeManager.Theme.InitializeFromStorage` | app/composables/theme_manager.js:26-35 | the current trait becomes StartupTrait(old trait, storage) and stays a key of the map; storage is only read |
| `ThemeManager.Theme.ActivePalette` | app/composables/theme_manager.js:37-39 | the active palette is one of the map's palettes, and under the invariant it is exactly the current trait's palette |
| `ThemeManager.StartupExamples` | app/composables/theme_manager.js:26-35 | a stored `extraversion` gives that trait and its palette `#471a03`/`#f49d1e`/`#fffbeb`; a stored `bogus` or a missing key gives `default`, whose palette is `#0a0a0a`/`#707070`/`#f4f4f4` |
| `ThemeManager.SelectedTraitAsWritten` | app/composables/theme_manager.js:19-22 | the selection rule with the source's object-property lookup: an own key or an inherited name such as `constructor` or `__lookupGetter__` becomes current, and any other name gives `default` |
| `ThemeManager.InheritedNameEscapesPalettes` | app/composables/theme_manager.js:19-20 | with that lookup, selecting `constructor` or `__lookupGetter__` from `default` leaves a current trait that is not a key of the map |

## Left out

- The real DOM is not modelled: `querySelectorAll`, `getComputedStyle` and the layout that produces `scrollHeight` and `clientHeight`. The document is an explicit sequence of `Element` objects, and the environment may change their fields between calls.
- Browser event dispatch is not modelled. Scroll, resize, orientation-change and mutation notifications are explicit calls (`DeliverScroll`, `DeliverWindowEvent`, `DeliverMutation`). The mutation's position in the tree is not modelled; the observer watches the whole subtree, so every position is reported.
- `ScrollManager.Element.ScrollTo`: smooth scrolling is modelled as reaching its target at once. In a browser, the re-evaluation at the end of the reset may still see non-zero offsets while the animation runs. The model claims nothing about animation progress.
- The window offset is one non-negative integer and each element's `scrollTop` an integer. The `scrollY || pageYOffset` fallback and fractional offsets, of the window or of an element, are not modelled. The code only compares offsets with 0 and assigns 0, so this loses nothing.
- Vue reactivity is not modelled: `ref`, `computed`, `onMounted`/`onUnmounted` and the `await nextTick()` at the start of the reset. The reset is synchronous, and the active palette is a function of the current trait.
- The `try`/`catch` around listener removal is not modelled; removal is total, so there is no error state.
- Disconnecting the mutation observer is modelled only as the handle becoming none.
- The tracker's module-level state is one `Tracker` object. The source shares it between every component that mounts the tracker. Interleaved mounts and unmounts of several components are not modelled: `ScrollManager.Tracker.Mount` requires the unmounted state. In the source, a second mount overwrites the observer handle without disconnecting the running observer, so after unmount that first observer would keep rebinding; the model does not capture this.
- `localStorage` access is not modelled. Storage is an input (`None` when unavailable), read under the key `dominant_trait`. Nothing is ever written back, because the source never writes it.
- `ThemeManager.Theme.SelectTrait`: a known trait is one of the six own keys of the map. The source's `palettes[name]` also accepts names the object inherits (see Findings). The model follows the evidently intended rule.

## Findings

| source | as written | input that shows it | evidently intended | confidence | as-written member | corrected member |
|---|---|---|---|---|---|---|
| app/composables/theme_manager.js:19-22 | `palettes[name]` tests whether a property is truthy, and an object literal answers truthily to inherited names | `theme_dominant_trait('constructor')` from `default` makes `constructor` current; the active palette is then the `Object` function, not a palette | only the six own keys are traits, so the current trait is always a key of the map | medium, not executed | `ThemeManager.InheritedNameEscapesPalettes` | `ThemeManager.SelectionsKeepKnownTrait` |
