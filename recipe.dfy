/**
 * A Recipe: a validated base configuration plus named groups of flag
 * variations, and the expansion of those variations into
 * `(group, index, flags)` items.
 */
module Recipes {
  import opened Wrappers
  import opened Document
  import opened Text

  const SUPPORTED_MEDIUM: seq<string> := ["animation", "audio", "image", "video"]
  const SUPPORTED_TOOLS: seq<string> := ["ffmpeg", "imagemagick"]

  /** One `RecipeError` per check; each carries the key its message names. */
  datatype RecipeError =
    | InvalidYaml
    | MissingEntry(key: string)
    | EntryInvalid(key: string)
    | DefaultFlagsInvalid
    | DefaultGroupIncomplete(group: string)
    | DefaultGroupInvalidFlags(group: string)
    | MissingVariations
    | VariationNameInvalid(name: string)
    | VariationIncomplete(name: string)
    | VariationInvalid(name: string)
    | VariationInvalidFlags(name: string)
    | MediumUnsupported(medium: string)
    | ToolUnsupported(tool: string)

  /** The text of the raised error. */
  function Message(e: RecipeError): string {
    match e
    case InvalidYaml => "Invalid YAML file"
    case MissingEntry(k) => "Recipe missing entry '" + k + "'"
    case EntryInvalid(k) => "Recipe '" + k + "' entry is invalid"
    case DefaultFlagsInvalid => "Recipe 'default_flags' is invalid"
    case DefaultGroupIncomplete(g) => "Recipe 'default_flags' '" + g + "' is incomplete"
    case DefaultGroupInvalidFlags(g) => "Recipe 'default_flags' '" + g + "' has invalid flags"
    case MissingVariations => "Recipe missing variations"
    case VariationNameInvalid(n) => "Recipe variation name '" + n + "' is invalid"
    case VariationIncomplete(n) => "Recipe variation '" + n + "' is incomplete"
    case VariationInvalid(n) => "Recipe variation '" + n + "' is invalid"
    case VariationInvalidFlags(n) => "Recipe variation '" + n + "' has invalid flags"
    case MediumUnsupported(m) => "Recipe medium '" + m + "' unsupported"
    case ToolUnsupported(t) => "Recipe tool '" + t + "' unsupported"
  }

  /**
   * A loaded recipe. `flags` are the default flag groups in document order,
   * each as the tokens `list.extend` takes from it; `variations` are the
   * variation groups in document order, each a list of flag-sets.
   */
  datatype Recipe = Recipe(
    flags: seq<(string, seq<string>)>,
    variations: seq<(string, seq<seq<string>>)>,
    codec: string,
    container: string,
    library: string,
    medium: string,
    tool: string)

  /** One element of a recipe's iteration. */
  datatype Item = Item(group: string, index: nat, flags: seq<string>)

  // ---- the document the loader accepts without an uncaught exception ----

  /** `safe_load(...) or {}`. */
  function Root(doc: Document): Value
    requires doc.Parsed?
  {
    if Truthy(doc.root) then doc.root else Map([])
  }

  /** A default-flags group `for x in flags` can iterate (falsy values are rejected before). */
  predicate Iterable(v: Value) {
    !Truthy(v) || v.Str? || v.List? || v.Map?
  }

  predicate DefaultsShaped(d: Option<Value>) {
    d.Some? && d.value.Map? ==>
      DistinctKeys(d.value.entries) &&
      forall i :: 0 <= i < |d.value.entries| ==> Iterable(d.value.entries[i].1)
  }

  predicate BaseShaped(base: Option<Value>) {
    base.Some? ==>
      base.value.Map? && DistinctKeys(base.value.entries) &&
      DefaultsShaped(Lookup(base.value.entries, "default_flags"))
  }

  predicate VariationShaped(v: Option<Value>) {
    v.Some? && Truthy(v.value) ==> v.value.Map? && DistinctKeys(v.value.entries)
  }

  /**
   * Documents for which the constructor raises nothing but `RecipeError`:
   * the top level and `base` are mappings, a truthy `variation` is a
   * mapping, default-flag groups are iterable, and no mapping repeats a key.
   */
  predicate Shaped(doc: Document) {
    doc.Parsed? ==>
      Root(doc).Map? && DistinctKeys(Root(doc).entries) &&
      BaseShaped(Lookup(Root(doc).entries, "base")) &&
      VariationShaped(Lookup(Root(doc).entries, "variation"))
  }

  // ---- the checks, one per raise ----

  /** The first failing check of a loop over `xs`, the way the loop's first `raise` ends it. */
  function FirstError<T>(xs: seq<T>, check: T -> Option<RecipeError>): Option<RecipeError>
  {
    if xs == [] then None
    else if check(xs[0]).Some? then check(xs[0])
    else FirstError(xs[1..], check)
  }

  /**
   * The loop raises nothing exactly when every element passes, and when it
   * raises it is with the error of the first failing element.
   */
  lemma {:induction false} FirstErrorSpec<T>(xs: seq<T>, check: T -> Option<RecipeError>)
    ensures FirstError(xs, check).None? <==> forall i :: 0 <= i < |xs| ==> check(xs[i]).None?
    ensures FirstError(xs, check).Some? ==>
      exists j :: 0 <= j < |xs| && FirstError(xs, check) == check(xs[j]) &&
        forall i :: 0 <= i < j ==> check(xs[i]).None?
  {
    if xs != [] && check(xs[0]).None? {
      FirstErrorSpec(xs[1..], check);
      if FirstError(xs, check).Some? {
        var j :| 0 <= j < |xs[1..]| && FirstError(xs[1..], check) == check(xs[1..][j]) &&
          forall i :: 0 <= i < j ==> check(xs[1..][i]).None?;
        assert FirstError(xs, check) == check(xs[j + 1]);
        forall i | 0 <= i < j + 1 ensures check(xs[i]).None? {
          if i > 0 { assert xs[i] == xs[1..][i - 1]; }
        }
      }
      forall i | 0 <= i < |xs[1..]| ensures xs[1..][i] == xs[i + 1] { }
    }
  }

  /**
   * `all(isinstance(x, str) for x in flags)` on a default-flags group:
   * iterating a string yields its characters and iterating a mapping its
   * keys, so both pass.
   */
  predicate AllStrings(v: Value) {
    match v
    case List(xs) => forall i :: 0 <= i < |xs| ==> xs[i].Str?
    case Str(_) => true
    case Map(_) => true
    case _ => false
  }

  function DefaultGroupError(g: (string, Value)): Option<RecipeError> {
    if !Truthy(g.1) then Some(DefaultGroupIncomplete(g.0))
    else if !AllStrings(g.1) then Some(DefaultGroupInvalidFlags(g.0))
    else None
  }

  /** The check of one `base` entry: `default_flags` is a mapping of good groups, anything else a safe string. */
  function BaseEntryError(entry: (string, Value)): Option<RecipeError> {
    if entry.0 == "default_flags" then
      if !entry.1.Map? then Some(DefaultFlagsInvalid)
      else FirstError(entry.1.entries, DefaultGroupError)
    else if !entry.1.Str? || !SafeName(entry.1.s) then Some(EntryInvalid(entry.0))
    else None
  }

  function FlagSetError(name: string, flags: Value): Option<RecipeError> {
    if !Truthy(flags) then Some(VariationIncomplete(name))
    else if !flags.List? then Some(VariationInvalid(name))
    else if !(forall i :: 0 <= i < |flags.items| ==> flags.items[i].Str?) then Some(VariationInvalidFlags(name))
    else None
  }

  /** The check of one variation group: safe name, a non-empty list, good flag-sets. */
  function VariationError(v: (string, Value)): Option<RecipeError> {
    if !SafeName(v.0) then Some(VariationNameInvalid(v.0))
    else if !Truthy(v.1) then Some(VariationIncomplete(v.0))
    else if !v.1.List? then Some(VariationInvalid(v.0))
    else FirstError(v.1.items, FlagSetCheck(v.0))
  }

  function FlagSetCheck(name: string): Value -> Option<RecipeError> {
    (flags: Value) => FlagSetError(name, flags)
  }

  // ---- the lookups of the constructor, in the order it makes them ----

  datatype Level = TopLevel | BaseLevel

  /** `data["base"]`, `data["base"]["default_flags"]`, `data["variation"]`, then the five base keys. */
  const LOOKUPS: seq<(Level, string)> := [
    (TopLevel, "base"), (BaseLevel, "default_flags"), (TopLevel, "variation"),
    (BaseLevel, "codec"), (BaseLevel, "container"), (BaseLevel, "library"),
    (BaseLevel, "medium"), (BaseLevel, "tool")]

  predicate Present(data: seq<(string, Value)>, lookup: (Level, string)) {
    match lookup.0
    case TopLevel => HasKey(data, lookup.1)
    case BaseLevel => HasKey(EntriesOf(Get(data, "base")), lookup.1)
  }

  /** The key of the first `KeyError`, trying the lookups in the constructor's order. */
  function FirstMissing(data: seq<(string, Value)>): Option<string> {
    var base := EntriesOf(Get(data, "base"));
    if !HasKey(data, "base") then Some("base")
    else if !HasKey(base, "default_flags") then Some("default_flags")
    else if !HasKey(data, "variation") then Some("variation")
    else if !HasKey(base, "codec") then Some("codec")
    else if !HasKey(base, "container") then Some("container")
    else if !HasKey(base, "library") then Some("library")
    else if !HasKey(base, "medium") then Some("medium")
    else if !HasKey(base, "tool") then Some("tool")
    else None
  }

  /** `data["variation"] or {}` as a list of entries. */
  function VariationEntries(data: seq<(string, Value)>): seq<(string, Value)> {
    var v := Get(data, "variation");
    if Truthy(v) then EntriesOf(v) else []
  }

  function GroupTokens(v: Value): seq<string> {
    match v
    case List(xs) => seq(|xs|, i requires 0 <= i < |xs| => StrOf(xs[i]))
    case Str(s) => seq(|s|, i requires 0 <= i < |s| => [s[i]])
    case Map(es) => seq(|es|, i requires 0 <= i < |es| => es[i].0)
    case _ => []
  }

  function DefaultGroups(gs: seq<(string, Value)>): seq<(string, seq<string>)> {
    seq(|gs|, i requires 0 <= i < |gs| => (gs[i].0, GroupTokens(gs[i].1)))
  }

  function FlagSets(v: Value): seq<seq<string>> {
    var sets := if v.List? then v.items else [];
    seq(|sets|, j requires 0 <= j < |sets| => GroupTokens(sets[j]))
  }

  function VariationGroups(vs: seq<(string, Value)>): seq<(string, seq<seq<string>>)> {
    seq(|vs|, i requires 0 <= i < |vs| => (vs[i].0, FlagSets(vs[i].1)))
  }

  /** `Recipe(file)`: validate in the constructor's order, raising at the first failed check. */
  function Load(doc: Document): Result<Recipe, RecipeError>
    requires Shaped(doc)
  {
    if doc.Unparsable? then Err(InvalidYaml)
    else
      var data := Root(doc).entries;
      var missing := FirstMissing(data);
      if missing.Some? then Err(MissingEntry(missing.value))
      else
        var base := EntriesOf(Get(data, "base"));
        var baseError := FirstError(base, BaseEntryError);
        if baseError.Some? then Err(baseError.value)
        else
          var variations := VariationEntries(data);
          if variations == [] then Err(MissingVariations)
          else
            var variationError := FirstError(variations, VariationError);
            if variationError.Some? then Err(variationError.value)
            else
              var medium := StrOf(Get(base, "medium"));
              var tool := StrOf(Get(base, "tool"));
              if medium !in SUPPORTED_MEDIUM then Err(MediumUnsupported(medium))
              else if tool !in SUPPORTED_TOOLS then Err(ToolUnsupported(tool))
              else Ok(Recipe(
                DefaultGroups(EntriesOf(Get(base, "default_flags"))),
                VariationGroups(variations),
                StrOf(Get(base, "codec")),
                StrOf(Get(base, "container")),
                StrOf(Get(base, "library")),
                medium,
                tool))
  }

  // ---- what an accepted document is, stated check by check ----

  /** Every check before the medium and tool checks passes. */
  predicate ShapeValid(doc: Document)
    requires Shaped(doc)
  {
    doc.Parsed? &&
    var data := Root(doc).entries;
    var base := EntriesOf(Get(data, "base"));
    var variations := VariationEntries(data);
    (forall j :: 0 <= j < |LOOKUPS| ==> Present(data, LOOKUPS[j])) &&
    (forall i :: 0 <= i < |base| ==> BaseEntryError(base[i]).None?) &&
    variations != [] &&
    (forall i :: 0 <= i < |variations| ==> VariationError(variations[i]).None?)
  }

  function DocMedium(doc: Document): string
    requires Shaped(doc) && doc.Parsed?
  {
    StrOf(Get(EntriesOf(Get(Root(doc).entries, "base")), "medium"))
  }

  function DocTool(doc: Document): string
    requires Shaped(doc) && doc.Parsed?
  {
    StrOf(Get(EntriesOf(Get(Root(doc).entries, "base")), "tool"))
  }

  /** The invariant of a constructed Recipe. */
  predicate Valid(r: Recipe) {
    SafeName(r.codec) && SafeName(r.container) && SafeName(r.library) &&
    SafeName(r.medium) && SafeName(r.tool) &&
    r.medium in SUPPORTED_MEDIUM && r.tool in SUPPORTED_TOOLS &&
    DistinctKeys(r.flags) && (forall i :: 0 <= i < |r.flags| ==> r.flags[i].1 != []) &&
    |r.variations| > 0 && DistinctKeys(r.variations) &&
    forall i :: 0 <= i < |r.variations| ==> SafeName(r.variations[i].0) && ValidSets(r.variations[i].1)
  }

  predicate ValidSets(sets: seq<seq<string>>) {
    sets != [] && forall j :: 0 <= j < |sets| ==> sets[j] != []
  }

  lemma LookupsPresent(data: seq<(string, Value)>)
    ensures var base := EntriesOf(Get(data, "base"));
      Present(data, LOOKUPS[0]) == HasKey(data, "base") &&
      Present(data, LOOKUPS[1]) == HasKey(base, "default_flags") &&
      Present(data, LOOKUPS[2]) == HasKey(data, "variation") &&
      Present(data, LOOKUPS[3]) == HasKey(base, "codec") &&
      Present(data, LOOKUPS[4]) == HasKey(base, "container") &&
      Present(data, LOOKUPS[5]) == HasKey(base, "library") &&
      Present(data, LOOKUPS[6]) == HasKey(base, "medium") &&
      Present(data, LOOKUPS[7]) == HasKey(base, "tool")
  {
  }

  /** The first `KeyError` is for the first absent key in lookup order. */
  lemma FirstMissingSpec(data: seq<(string, Value)>)
    ensures FirstMissing(data).None? <==> forall j :: 0 <= j < |LOOKUPS| ==> Present(data, LOOKUPS[j])
    ensures forall j :: (0 <= j < |LOOKUPS| && !Present(data, LOOKUPS[j]) &&
      (forall i :: 0 <= i < j ==> Present(data, LOOKUPS[i]))) ==>
      FirstMissing(data) == Some(LOOKUPS[j].1)
  {
    LookupsPresent(data);
    forall j | 0 <= j < |LOOKUPS| && !Present(data, LOOKUPS[j]) &&
      (forall i :: 0 <= i < j ==> Present(data, LOOKUPS[i]))
      ensures FirstMissing(data) == Some(LOOKUPS[j].1)
    {
      assert j == 0 || j == 1 || j == 2 || j == 3 || j == 4 || j == 5 || j == 6 || j == 7;
      if j > 0 { assert Present(data, LOOKUPS[0]); }
      if j > 1 { assert Present(data, LOOKUPS[1]); }
      if j > 2 { assert Present(data, LOOKUPS[2]); }
      if j > 3 { assert Present(data, LOOKUPS[3]); }
      if j > 4 { assert Present(data, LOOKUPS[4]); }
      if j > 5 { assert Present(data, LOOKUPS[5]); }
      if j > 6 { assert Present(data, LOOKUPS[6]); }
    }
    if FirstMissing(data).None? {
      forall j | 0 <= j < |LOOKUPS| ensures Present(data, LOOKUPS[j]) {
        assert j == 0 || j == 1 || j == 2 || j == 3 || j == 4 || j == 5 || j == 6 || j == 7;
      }
    }
  }

  /** A missing key is reported by name, the first one in lookup order; an empty document reports `base`. */
  lemma MissingEntryReported(doc: Document, j: nat)
    requires Shaped(doc) && doc.Parsed? && j < |LOOKUPS|
    requires !Present(Root(doc).entries, LOOKUPS[j])
    requires forall i :: 0 <= i < j ==> Present(Root(doc).entries, LOOKUPS[i])
    ensures Load(doc) == Err(MissingEntry(LOOKUPS[j].1))
    ensures Message(Load(doc).error) == "Recipe missing entry '" + LOOKUPS[j].1 + "'"
  {
    FirstMissingSpec(Root(doc).entries);
  }

  /** The errors the `base` loop can raise. */
  predicate IsBaseError(e: RecipeError) {
    e.EntryInvalid? || e.DefaultFlagsInvalid? || e.DefaultGroupIncomplete? || e.DefaultGroupInvalidFlags?
  }

  /** The errors the variation loop can raise. */
  predicate IsVariationError(e: RecipeError) {
    e.VariationNameInvalid? || e.VariationIncomplete? || e.VariationInvalid? || e.VariationInvalidFlags?
  }

  lemma BaseLoopErrors(base: seq<(string, Value)>)
    ensures FirstError(base, BaseEntryError).Some? ==> IsBaseError(FirstError(base, BaseEntryError).value)
  {
    FirstErrorSpec(base, BaseEntryError);
    if FirstError(base, BaseEntryError).Some? {
      var j :| 0 <= j < |base| && FirstError(base, BaseEntryError) == BaseEntryError(base[j]) &&
        forall i :: 0 <= i < j ==> BaseEntryError(base[i]).None?;
      if base[j].0 == "default_flags" && base[j].1.Map? {
        FirstErrorSpec(base[j].1.entries, DefaultGroupError);
      }
    }
  }

  lemma VariationLoopErrors(vs: seq<(string, Value)>)
    ensures FirstError(vs, VariationError).Some? ==> IsVariationError(FirstError(vs, VariationError).value)
  {
    FirstErrorSpec(vs, VariationError);
    if FirstError(vs, VariationError).Some? {
      var j :| 0 <= j < |vs| && FirstError(vs, VariationError) == VariationError(vs[j]) &&
        forall i :: 0 <= i < j ==> VariationError(vs[i]).None?;
      if SafeName(vs[j].0) && Truthy(vs[j].1) && vs[j].1.List? {
        FirstErrorSpec(vs[j].1.items, FlagSetCheck(vs[j].0));
      }
    }
  }

  /** With every key present, no `MissingEntry` error is raised. */
  lemma NoMissingEntryWhenPresent(doc: Document)
    requires Shaped(doc) && doc.Parsed?
    requires forall j :: 0 <= j < |LOOKUPS| ==> Present(Root(doc).entries, LOOKUPS[j])
    ensures !(Load(doc).Err? && Load(doc).error.MissingEntry?)
  {
    var data := Root(doc).entries;
    FirstMissingSpec(data);
    BaseLoopErrors(EntriesOf(Get(data, "base")));
    VariationLoopErrors(VariationEntries(data));
  }

  /**
   * With every key present, the first `base` entry in document order that is
   * not a safe string (or, for `default_flags`, not a mapping of non-empty
   * all-string groups) decides the error.
   */
  lemma BaseFirstOffender(doc: Document, j: nat)
    requires Shaped(doc) && doc.Parsed?
    requires forall k :: 0 <= k < |LOOKUPS| ==> Present(Root(doc).entries, LOOKUPS[k])
    requires var base := EntriesOf(Get(Root(doc).entries, "base"));
      j < |base| && BaseEntryError(base[j]).Some? &&
      forall i :: 0 <= i < j ==> BaseEntryError(base[i]).None?
    ensures Load(doc) == Err(BaseEntryError(EntriesOf(Get(Root(doc).entries, "base"))[j]).value)
  {
    var base := EntriesOf(Get(Root(doc).entries, "base"));
    FirstMissingSpec(Root(doc).entries);
    FirstErrorSpec(base, BaseEntryError);
    var k :| 0 <= k < |base| && FirstError(base, BaseEntryError) == BaseEntryError(base[k]) &&
      forall i :: 0 <= i < k ==> BaseEntryError(base[i]).None?;
    assert k == j;
  }

  /**
   * Once the base checks pass, the first variation group in document order
   * that fails (unsafe name, empty, not a list, or a bad flag-set) decides
   * the error.
   */
  lemma VariationFirstOffender(doc: Document, j: nat)
    requires Shaped(doc) && doc.Parsed?
    requires forall k :: 0 <= k < |LOOKUPS| ==> Present(Root(doc).entries, LOOKUPS[k])
    requires var base := EntriesOf(Get(Root(doc).entries, "base"));
      forall i :: 0 <= i < |base| ==> BaseEntryError(base[i]).None?
    requires var vs := VariationEntries(Root(doc).entries);
      j < |vs| && VariationError(vs[j]).Some? &&
      forall i :: 0 <= i < j ==> VariationError(vs[i]).None?
    ensures Load(doc) == Err(VariationError(VariationEntries(Root(doc).entries)[j]).value)
  {
    var base := EntriesOf(Get(Root(doc).entries, "base"));
    var vs := VariationEntries(Root(doc).entries);
    FirstMissingSpec(Root(doc).entries);
    FirstErrorSpec(base, BaseEntryError);
    FirstErrorSpec(vs, VariationError);
    var k :| 0 <= k < |vs| && FirstError(vs, VariationError) == VariationError(vs[k]) &&
      forall i :: 0 <= i < k ==> VariationError(vs[i]).None?;
    assert k == j;
  }

  /**
   * The medium and tool are checked only after every shape check passes,
   * medium first: the result is an unsupported-medium or unsupported-tool
   * error or a recipe exactly when the shape checks pass, and a recipe
   * exactly when both are supported as well.
   */
  lemma SupportCheckedLast(doc: Document)
    requires Shaped(doc)
    ensures ShapeValid(doc) <==>
      (Load(doc).Ok? || Load(doc).error.MediumUnsupported? || Load(doc).error.ToolUnsupported?)
    ensures Load(doc).Ok? <==>
      ShapeValid(doc) && DocMedium(doc) in SUPPORTED_MEDIUM && DocTool(doc) in SUPPORTED_TOOLS
    ensures Load(doc).Err? && Load(doc).error.MediumUnsupported? ==>
      Load(doc).error.medium == DocMedium(doc) && DocMedium(doc) !in SUPPORTED_MEDIUM
    ensures Load(doc).Err? && Load(doc).error.ToolUnsupported? ==>
      Load(doc).error.tool == DocTool(doc) && DocTool(doc) !in SUPPORTED_TOOLS &&
      DocMedium(doc) in SUPPORTED_MEDIUM
  {
    if doc.Parsed? {
      var data := Root(doc).entries;
      FirstMissingSpec(data);
      FirstErrorSpec(EntriesOf(Get(data, "base")), BaseEntryError);
      FirstErrorSpec(VariationEntries(data), VariationError);
      BaseLoopErrors(EntriesOf(Get(data, "base")));
      VariationLoopErrors(VariationEntries(data));
    }
  }

  /** With every lookup succeeding, `base` is a mapping holding all six keys. */
  lemma BaseFacts(doc: Document)
    requires Shaped(doc) && doc.Parsed?
    requires forall j :: 0 <= j < |LOOKUPS| ==> Present(Root(doc).entries, LOOKUPS[j])
    ensures var data := Root(doc).entries;
      var base := EntriesOf(Get(data, "base"));
      Get(data, "base").Map? && DistinctKeys(base) &&
      DefaultsShaped(Lookup(base, "default_flags")) &&
      HasKey(base, "default_flags") && HasKey(base, "codec") && HasKey(base, "container") &&
      HasKey(base, "library") && HasKey(base, "medium") && HasKey(base, "tool")
  {
    var data := Root(doc).entries;
    LookupsPresent(data);
    assert Present(data, LOOKUPS[0]) && Present(data, LOOKUPS[1]) && Present(data, LOOKUPS[3]);
    assert Present(data, LOOKUPS[4]) && Present(data, LOOKUPS[5]);
    assert Present(data, LOOKUPS[6]) && Present(data, LOOKUPS[7]);
  }

  /** A loaded recipe satisfies the Recipe invariant. */
  lemma LoadValid(doc: Document)
    requires Shaped(doc) && Load(doc).Ok?
    ensures Valid(Load(doc).value)
  {
    var data := Root(doc).entries;
    var base := EntriesOf(Get(data, "base"));
    var vs := VariationEntries(data);
    FirstMissingSpec(data);
    BaseFacts(doc);
    FirstErrorSpec(base, BaseEntryError);
    FirstErrorSpec(vs, VariationError);
    StringEntryValid(base, "codec");
    StringEntryValid(base, "container");
    StringEntryValid(base, "library");
    StringEntryValid(base, "medium");
    StringEntryValid(base, "tool");
    DefaultsValid(base);
    VariationsValid(data);
  }

  lemma StringEntryValid(base: seq<(string, Value)>, k: string)
    requires k != "default_flags" && HasKey(base, k)
    requires forall i :: 0 <= i < |base| ==> BaseEntryError(base[i]).None?
    ensures Get(base, k).Str? && SafeName(StrOf(Get(base, k)))
  {
    LookupFinds(base, k);
    var i :| 0 <= i < |base| && base[i] == (k, Get(base, k));
    assert BaseEntryError(base[i]).None?;
  }

  lemma DefaultsValid(base: seq<(string, Value)>)
    requires HasKey(base, "default_flags") && DefaultsShaped(Lookup(base, "default_flags"))
    requires forall i :: 0 <= i < |base| ==> BaseEntryError(base[i]).None?
    ensures var gs := DefaultGroups(EntriesOf(Get(base, "default_flags")));
      DistinctKeys(gs) && forall i :: 0 <= i < |gs| ==> gs[i].1 != []
  {
    LookupFinds(base, "default_flags");
    var i :| 0 <= i < |base| && base[i] == ("default_flags", Get(base, "default_flags"));
    assert BaseEntryError(base[i]).None?;
    var groups := Get(base, "default_flags").entries;
    FirstErrorSpec(groups, DefaultGroupError);
    forall k | 0 <= k < |groups| ensures GroupTokens(groups[k].1) != [] {
      assert DefaultGroupError(groups[k]).None?;
    }
  }

  lemma VariationsValid(data: seq<(string, Value)>)
    requires VariationShaped(Lookup(data, "variation"))
    requires var vs := VariationEntries(data);
      forall i :: 0 <= i < |vs| ==> VariationError(vs[i]).None?
    ensures var groups := VariationGroups(VariationEntries(data));
      DistinctKeys(groups) &&
      forall i :: 0 <= i < |groups| ==> SafeName(groups[i].0) && ValidSets(groups[i].1)
  {
    var vs := VariationEntries(data);
    forall i | 0 <= i < |vs| ensures SafeName(vs[i].0) && ValidSets(FlagSets(vs[i].1)) {
      assert VariationError(vs[i]).None?;
      var items := vs[i].1.items;
      FirstErrorSpec(items, FlagSetCheck(vs[i].0));
      forall j | 0 <= j < |items| ensures GroupTokens(items[j]) != [] {
        assert FlagSetCheck(vs[i].0)(items[j]).None?;
      }
    }
  }

  // ---- iteration ----

  /** The tokens of every default group whose name differs from `group`, concatenated in order. */
  function BaseFlags(defaults: seq<(string, seq<string>)>, group: string): seq<string> {
    if defaults == [] then []
    else
      var last := defaults[|defaults| - 1];
      BaseFlags(defaults[..|defaults| - 1], group) + (if last.0 != group then last.1 else [])
  }

  /** The tokens of every default group, concatenated in order. */
  function AllFlags(defaults: seq<(string, seq<string>)>): seq<string> {
    if defaults == [] then [] else AllFlags(defaults[..|defaults| - 1]) + defaults[|defaults| - 1].1
  }

  function GroupItems(name: string, sets: seq<seq<string>>, base: seq<string>): seq<Item> {
    seq(|sets|, i requires 0 <= i < |sets| => Item(name, i, base + sets[i]))
  }

  function Expand(defaults: seq<(string, seq<string>)>, vs: seq<(string, seq<seq<string>>)>): seq<Item> {
    if vs == [] then []
    else
      var last := vs[|vs| - 1];
      Expand(defaults, vs[..|vs| - 1]) + GroupItems(last.0, last.1, BaseFlags(defaults, last.0))
  }

  /** What iterating the recipe yields. */
  function Items(r: Recipe): seq<Item> {
    Expand(r.flags, r.variations)
  }

  /** `len(recipe)`: the number of items iteration yields. */
  function Len(r: Recipe): nat {
    |Items(r)|
  }

  /** The number of flag-sets declared across all variation groups. */
  function FlagSetCount(vs: seq<(string, seq<seq<string>>)>): nat {
    if vs == [] then 0 else FlagSetCount(vs[..|vs| - 1]) + |vs[|vs| - 1].1|
  }

  lemma {:induction false} ExpandLength(d: seq<(string, seq<string>)>, vs: seq<(string, seq<seq<string>>)>)
    ensures |Expand(d, vs)| == FlagSetCount(vs)
  {
    if vs != [] {
      ExpandLength(d, vs[..|vs| - 1]);
    }
  }

  /** `len(recipe)` counts the flag-sets of all variation groups, whatever the default groups are. */
  lemma LenCountsFlagSets(r: Recipe, otherDefaults: seq<(string, seq<string>)>)
    ensures Len(r) == FlagSetCount(r.variations)
    ensures Len(r.(flags := otherDefaults)) == Len(r)
  {
    ExpandLength(r.flags, r.variations);
    ExpandLength(otherDefaults, r.variations);
  }

  /**
   * Groups come in declaration order and, within a group, indices 0..k-1 in
   * list order: flag-set `i` of group `g` is item number
   * (flag-sets of the groups before `g`) + `i`, with the flags of the
   * other default groups followed by its own tokens.
   */
  lemma {:induction false} ItemAt(d: seq<(string, seq<string>)>, vs: seq<(string, seq<seq<string>>)>, g: nat, i: nat)
    requires g < |vs| && i < |vs[g].1|
    ensures FlagSetCount(vs[..g]) + i < |Expand(d, vs)|
    ensures Expand(d, vs)[FlagSetCount(vs[..g]) + i] == Item(vs[g].0, i, BaseFlags(d, vs[g].0) + vs[g].1[i])
  {
    var init := vs[..|vs| - 1];
    ExpandLength(d, init);
    ExpandLength(d, vs);
    if g == |vs| - 1 {
      assert vs[..g] == init;
    } else {
      ItemAt(d, init, g, i);
      assert init[..g] == vs[..g];
    }
  }

  /** Every item is some flag-set of some group, at the position `ItemAt` gives it. */
  lemma {:induction false} ItemCovered(d: seq<(string, seq<string>)>, vs: seq<(string, seq<seq<string>>)>, k: nat)
    requires k < |Expand(d, vs)|
    ensures exists g: nat, i: nat ::
      g < |vs| && i < |vs[g].1| && k == FlagSetCount(vs[..g]) + i &&
      Expand(d, vs)[k] == Item(vs[g].0, i, BaseFlags(d, vs[g].0) + vs[g].1[i])
  {
    var init := vs[..|vs| - 1];
    ExpandLength(d, init);
    if k < |Expand(d, init)| {
      ItemCovered(d, init, k);
      var g: nat, i: nat :| g < |init| && i < |init[g].1| && k == FlagSetCount(init[..g]) + i &&
        Expand(d, init)[k] == Item(init[g].0, i, BaseFlags(d, init[g].0) + init[g].1[i]);
      assert init[..g] == vs[..g];
    } else {
      var g := |vs| - 1;
      assert vs[..g] == init;
      var i := k - FlagSetCount(init);
      assert Expand(d, vs)[k] == Item(vs[g].0, i, BaseFlags(d, vs[g].0) + vs[g].1[i]);
    }
  }

  /** With distinct group names, no two items share both group and index. */
  lemma ItemKeysDistinct(r: Recipe, k1: nat, k2: nat)
    requires DistinctKeys(r.variations)
    requires k1 < k2 < |Items(r)|
    ensures (Items(r)[k1].group, Items(r)[k1].index) != (Items(r)[k2].group, Items(r)[k2].index)
  {
    var vs := r.variations;
    ItemCovered(r.flags, vs, k1);
    ItemCovered(r.flags, vs, k2);
    var g1: nat, i1: nat :| g1 < |vs| && i1 < |vs[g1].1| && k1 == FlagSetCount(vs[..g1]) + i1 &&
      Items(r)[k1] == Item(vs[g1].0, i1, BaseFlags(r.flags, vs[g1].0) + vs[g1].1[i1]);
    var g2: nat, i2: nat :| g2 < |vs| && i2 < |vs[g2].1| && k2 == FlagSetCount(vs[..g2]) + i2 &&
      Items(r)[k2] == Item(vs[g2].0, i2, BaseFlags(r.flags, vs[g2].0) + vs[g2].1[i2]);
    if g1 != g2 {
      assert vs[g1].0 != vs[g2].0;
    }
  }

  lemma {:induction false} BaseFlagsAppend(a: seq<(string, seq<string>)>, b: seq<(string, seq<string>)>, group: string)
    ensures BaseFlags(a + b, group) == BaseFlags(a, group) + BaseFlags(b, group)
  {
    if b != [] {
      BaseFlagsAppend(a, b[..|b| - 1], group);
      assert (a + b)[..|a + b| - 1] == a + b[..|b| - 1];
    } else {
      assert a + b == a;
    }
  }

  /** No default group carries the variation's name: all default groups apply. */
  lemma {:induction false} NoOverride(defaults: seq<(string, seq<string>)>, group: string)
    requires forall i :: 0 <= i < |defaults| ==> defaults[i].0 != group
    ensures BaseFlags(defaults, group) == AllFlags(defaults)
  {
    if defaults != [] {
      NoOverride(defaults[..|defaults| - 1], group);
    }
  }

  lemma OverrideSplit(pre: seq<(string, seq<string>)>, x: (string, seq<string>), post: seq<(string, seq<string>)>)
    requires forall i :: 0 <= i < |pre| ==> pre[i].0 != x.0
    requires forall i :: 0 <= i < |post| ==> post[i].0 != x.0
    ensures BaseFlags(pre + [x] + post, x.0) == AllFlags(pre) + AllFlags(post)
  {
    BaseFlagsAppend(pre + [x], post, x.0);
    DropMatchingGroup(pre, x);
    NoOverride(pre, x.0);
    NoOverride(post, x.0);
  }

  lemma DropMatchingGroup(pre: seq<(string, seq<string>)>, x: (string, seq<string>))
    ensures BaseFlags(pre + [x], x.0) == BaseFlags(pre, x.0)
  {
    assert (pre + [x])[..|pre|] == pre;
  }

  /**
   * A variation group overrides the equally named default group: every
   * other default group applies, in order, and that one is left out.
   */
  lemma Override(defaults: seq<(string, seq<string>)>, j: nat)
    requires DistinctKeys(defaults) && j < |defaults|
    ensures BaseFlags(defaults, defaults[j].0) == AllFlags(defaults[..j]) + AllFlags(defaults[j + 1..])
  {
    var pre, post, x := defaults[..j], defaults[j + 1..], defaults[j];
    assert forall i :: 0 <= i < |pre| ==> pre[i].0 != x.0 by {
      forall i | 0 <= i < |pre| ensures pre[i].0 != x.0 {
        assert pre[i] == defaults[i];
      }
    }
    assert forall i :: 0 <= i < |post| ==> post[i].0 != x.0 by {
      forall i | 0 <= i < |post| ensures post[i].0 != x.0 {
        assert post[i] == defaults[j + 1 + i];
      }
    }
    OverrideSplit(pre, x, post);
    SplitAround(defaults, j);
  }

  lemma SplitAround<T>(s: seq<T>, j: nat)
    requires j < |s|
    ensures s == s[..j] + [s[j]] + s[j + 1..]
  {
  }

  /** `__iter__`: collect `base_flags` with `extend`, then yield one item per flag-set. */
  method Iterate(r: Recipe) returns (items: seq<Item>)
    ensures items == Items(r)
  {
    items := [];
    var g := 0;
    while g < |r.variations|
      invariant 0 <= g <= |r.variations|
      invariant items == Expand(r.flags, r.variations[..g])
    {
      var (name, sets) := r.variations[g];
      var baseFlags: seq<string> := [];
      var d := 0;
      while d < |r.flags|
        invariant 0 <= d <= |r.flags|
        invariant baseFlags == BaseFlags(r.flags[..d], name)
      {
        if r.flags[d].0 != name {
          baseFlags := baseFlags + r.flags[d].1;
        }
        assert r.flags[..d + 1][..d] == r.flags[..d];
        d := d + 1;
      }
      assert r.flags[..d] == r.flags;
      var idx := 0;
      while idx < |sets|
        invariant 0 <= idx <= |sets|
        invariant items == Expand(r.flags, r.variations[..g]) + GroupItems(name, sets, baseFlags)[..idx]
      {
        GroupItemsNext(name, sets, baseFlags, idx);
        items := items + [Item(name, idx, baseFlags + sets[idx])];
        idx := idx + 1;
      }
      ExpandNext(r.flags, r.variations, g);
      g := g + 1;
    }
    assert r.variations[..g] == r.variations;
  }

  lemma GroupItemsNext(name: string, sets: seq<seq<string>>, base: seq<string>, idx: nat)
    requires idx < |sets|
    ensures GroupItems(name, sets, base)[..idx + 1] == GroupItems(name, sets, base)[..idx] + [Item(name, idx, base + sets[idx])]
  {
  }

  lemma ExpandNext(d: seq<(string, seq<string>)>, vs: seq<(string, seq<seq<string>>)>, g: nat)
    requires g < |vs|
    ensures Expand(d, vs[..g + 1]) ==
      Expand(d, vs[..g]) + GroupItems(vs[g].0, vs[g].1, BaseFlags(d, vs[g].0))[..|vs[g].1|]
  {
    assert vs[..g + 1][..g] == vs[..g];
    var gi := GroupItems(vs[g].0, vs[g].1, BaseFlags(d, vs[g].0));
    assert gi[..|vs[g].1|] == gi;
  }
}
