/**
 * The theme manager: a fixed map from personality traits to colour palettes,
 * one mutable "current trait", the rule by which a trait is selected, the
 * start-up read of the stored trait and the palette derived from the current
 * trait.
 *
 * A "known" trait is one of the six keys of the map. Persistent storage is an
 * input to initialisation: `None` when the environment has none, otherwise
 * its key-value contents.
 */
module ThemeManager {
  import opened Wrappers

  /** The three shades of one theme. */
  datatype Palette = Palette(dark: string, medium: string, light: string)

  /** The storage key under which the chosen trait is kept. */
  const DominantTraitKey: string := "dominant_trait"

  /** The trait used when no known trait is chosen. */
  const DefaultTrait: string := "default"

  /** The fixed trait-to-palette map. */
  const Palettes: map<string, Palette> := map[
    "default" := Palette("#0a0a0a", "#707070", "#f4f4f4"),
    "neuroticismo" := Palette("#470b0b", "#ea4747", "#fff5f5"),
    "extraversion" := Palette("#471a03", "#f49d1e", "#fffbeb"),
    "apertura_experiencia" := Palette("#2b1066", "#8c62f4", "#f5f5ff"),
    "amabilidad" := Palette("#03281e", "#0fb773", "#ebfff4"),
    "conciencia" := Palette("#172751", "#458df4", "#ebf3ff")
  ]

  /** The map holds exactly the six traits, `default` among them. */
  lemma PalettesHaveSixTraits()
    ensures Palettes.Keys == {"default", "neuroticismo", "extraversion", "apertura_experiencia", "amabilidad", "conciencia"}
    ensures |Palettes| == 6
  {
    var keys := Palettes.Keys;
    assert keys == {"default", "neuroticismo", "extraversion", "apertura_experiencia", "amabilidad", "conciencia"};
    assert |keys - {"default"}| == 5 by {
      assert keys - {"default"} == {"neuroticismo", "extraversion", "apertura_experiencia", "amabilidad", "conciencia"};
    }
  }

  /**
   * What selecting `name` leaves current, stated without the source's
   * asymmetric guards: a known trait, or `default` for an unknown name.
   */
  function SelectedTrait(name: string): (selected: string)
    ensures selected in Palettes
    ensures name in Palettes ==> selected == name
    ensures name !in Palettes ==> selected == DefaultTrait
  {
    if name in Palettes then name else DefaultTrait
  }

  /**
   * The source's guards write the current trait exactly when the value
   * changes: a known, different name, or an unknown name while the current
   * trait is not `default`.
   */
  predicate SelectionWrites(current: string, name: string)
  {
    (name in Palettes && name != current) || (name !in Palettes && current != DefaultTrait)
  }

  lemma SelectionWritesIffChanges(current: string, name: string)
    requires current in Palettes
    ensures SelectionWrites(current, name) <==> SelectedTrait(name) != current
  {
  }

  /** Selecting the current trait leaves it current and writes nothing. */
  lemma SelectingCurrentChangesNothing(current: string)
    requires current in Palettes
    ensures SelectedTrait(current) == current && !SelectionWrites(current, current)
  {
  }

  /**
   * Names that an ordinary object literal answers to without owning them:
   * the properties every object inherits from its prototype.
   */
  const InheritedKeys: set<string> := {"constructor", "toString", "valueOf", "hasOwnProperty",
    "isPrototypeOf", "propertyIsEnumerable", "toLocaleString", "__proto__",
    "__defineGetter__", "__defineSetter__", "__lookupGetter__", "__lookupSetter__"}

  /**
   * The selection rule as the source writes it, where `palettes[name]` is
   * truthy for an inherited name as well as for the six own keys.
   */
  function SelectedTraitAsWritten(current: string, name: string): (selected: string)
    ensures name in Palettes ==> selected == name
    ensures name in InheritedKeys ==> selected == name
    ensures !(name in Palettes || name in InheritedKeys) ==> selected == DefaultTrait
  {
    var found := name in Palettes || name in InheritedKeys;
    if found && name != current then name
    else if !found && current != DefaultTrait then DefaultTrait
    else current
  }

  /** As written, selecting `constructor` leaves a current trait that has no palette. */
  lemma InheritedNameEscapesPalettes()
    ensures SelectedTraitAsWritten(DefaultTrait, "constructor") == "constructor"
    ensures "constructor" !in Palettes
    ensures SelectedTraitAsWritten(DefaultTrait, "__lookupGetter__") == "__lookupGetter__"
    ensures "__lookupGetter__" !in Palettes
  {
  }

  /** The trait current after selecting each name of `names` in turn from `current`. */
  function SelectAll(current: string, names: seq<string>): string
    decreases names
  {
    if names == [] then current else SelectAll(SelectedTrait(names[0]), names[1..])
  }

  /** Starting from a known trait, any sequence of selections ends on a known trait. */
  lemma {:induction false} SelectionsKeepKnownTrait(current: string, names: seq<string>)
    requires current in Palettes
    ensures SelectAll(current, names) in Palettes
    decreases names
  {
    if names != [] {
      SelectionsKeepKnownTrait(SelectedTrait(names[0]), names[1..]);
    }
  }

  /** Only the last selection matters. */
  lemma {:induction false} LastSelectionWins(current: string, names: seq<string>)
    requires names != []
    ensures SelectAll(current, names) == SelectedTrait(names[|names| - 1])
    decreases names
  {
    if |names| > 1 {
      LastSelectionWins(SelectedTrait(names[0]), names[1..]);
    }
  }

  /** Selecting twice is selecting once: the second selection writes nothing. */
  lemma SelectionIdempotent(current: string, name: string)
    ensures SelectAll(current, [name, name]) == SelectAll(current, [name])
    ensures !SelectionWrites(SelectedTrait(name), name)
  {
    assert [name, name][1..] == [name];
  }

  /**
   * The trait current after the start-up read of `storage`: unchanged when
   * there is no storage, the stored trait when it is known, `default`
   * otherwise.
   */
  function StartupTrait(current: string, storage: Option<map<string, string>>): (startup: string)
    ensures storage.None? ==> startup == current
    ensures storage.Some? && DominantTraitKey in storage.value && storage.value[DominantTraitKey] in Palettes ==>
      startup == storage.value[DominantTraitKey]
    ensures storage.Some? && (DominantTraitKey !in storage.value || storage.value[DominantTraitKey] !in Palettes) ==>
      startup == DefaultTrait
  {
    match storage
    case None => current
    case Some(entries) =>
      if DominantTraitKey in entries then SelectedTrait(entries[DominantTraitKey]) else DefaultTrait
  }

  /** The palette for the trait `name`, falling back to the default palette. */
  function PaletteFor(name: string): (p: Palette)
    ensures p in Palettes.Values
    ensures name in Palettes ==> p == Palettes[name]
    ensures name !in Palettes ==> p == Palettes[DefaultTrait]
  {
    if name in Palettes then Palettes[name] else Palettes[DefaultTrait]
  }

  /** The theme state: the current dominant trait. */
  class Theme {
    var currentTrait: string

    /** The current trait is always a key of the map. */
    ghost predicate Valid()
      reads this
    {
      currentTrait in Palettes
    }

    constructor ()
      ensures Valid() && currentTrait == DefaultTrait
    {
      currentTrait := DefaultTrait;
    }

    /**
     * Selects `name`: a known trait other than the current one becomes
     * current; an unknown name resets to `default` unless that is current.
     */
    method SelectTrait(name: string)
      requires Valid()
      modifies this
      ensures Valid()
      ensures currentTrait == SelectedTrait(name)
      ensures currentTrait == old(currentTrait) <==> !SelectionWrites(old(currentTrait), name)
    {
      if name in Palettes && name != currentTrait {
        currentTrait := name;
      } else if name !in Palettes && currentTrait != DefaultTrait {
        currentTrait := DefaultTrait;
      }
    }

    /**
     * Reads the stored trait once: selects it when it is a non-empty known
     * trait, selects `default` otherwise, and does nothing without storage.
     */
    method InitializeFromStorage(storage: Option<map<string, string>>)
      requires Valid()
      modifies this
      ensures Valid()
      ensures currentTrait == StartupTrait(old(currentTrait), storage)
    {
      if storage.Some? {
        var saved: Option<string> := if DominantTraitKey in storage.value then Some(storage.value[DominantTraitKey]) else None;
        if saved.Some? && saved.value != "" && saved.value in Palettes {
          SelectTrait(saved.value);
        } else {
          SelectTrait(DefaultTrait);
        }
      }
    }

    /** The palette of the current trait. */
    function ActivePalette(): (p: Palette)
      reads this
      ensures p in Palettes.Values
      ensures Valid() ==> p == Palettes[currentTrait]
    {
      PaletteFor(currentTrait)
    }
  }

  /** Stored `extraversion` gives its own palette; a stored unknown name gives the default one. */
  lemma StartupExamples()
    ensures StartupTrait(DefaultTrait, Some(map[DominantTraitKey := "extraversion"])) == "extraversion"
    ensures PaletteFor("extraversion") == Palette("#471a03", "#f49d1e", "#fffbeb")
    ensures StartupTrait("conciencia", Some(map[DominantTraitKey := "bogus"])) == DefaultTrait
    ensures StartupTrait("conciencia", Some(map[])) == DefaultTrait
    ensures PaletteFor(DefaultTrait) == Palette("#0a0a0a", "#707070", "#f4f4f4")
  {
  }
}
