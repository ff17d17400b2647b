/**
 * The replicator: the recipes of one medium, the templates generated for
 * it, and the output directory the corpus is written to. It loads and
 * filters recipes, counts what will be generated, runs one generator per
 * (recipe, template) pair, and tidies the directory afterwards.
 */
module Replication {
  import opened Wrappers
  import opened Document
  import opened Text
  import opened Recipes
  import opened Generators
  import opened Dispatch
  import opened Dedup

  /** The output directory: the names of the files in it and their contents. */
  class Directory {
    var files: map<string, Bytes>

    constructor (files: map<string, Bytes>)
      ensures this.files == files
    {
      this.files := files;
    }
  }

  // ---- loading recipes ----

  /** Every document loaded, in order. */
  function Loads(docs: seq<Document>): seq<Result<Recipe, RecipeError>>
    requires forall i :: 0 <= i < |docs| ==> Shaped(docs[i])
  {
    seq(|docs|, i requires 0 <= i < |docs| => Load(docs[i]))
  }

  /**
   * The recipes kept from the load results, in order: the first load error
   * ends construction, and a recipe of another medium is skipped.
   */
  function Kept(medium: string, loads: seq<Result<Recipe, RecipeError>>): Result<seq<Recipe>, RecipeError> {
    if loads == [] then Ok([])
    else
      match Kept(medium, loads[..|loads| - 1])
      case Err(e) => Err(e)
      case Ok(kept) =>
        match loads[|loads| - 1]
        case Err(e) => Err(e)
        case Ok(r) => Ok(if r.medium == medium then kept + [r] else kept)
  }

  function KeptRecipes(medium: string, docs: seq<Document>): Result<seq<Recipe>, RecipeError>
    requires forall i :: 0 <= i < |docs| ==> Shaped(docs[i])
  {
    Kept(medium, Loads(docs))
  }

  // ---- the pre-flight count ----

  function TotalLen(rs: seq<Recipe>): nat {
    if rs == [] then 0 else Len(rs[0]) + TotalLen(rs[1..])
  }

  /** `len(replicator)`: items across all recipes, once per template. */
  function Preflight(rs: seq<Recipe>, ts: seq<Template>): nat {
    TotalLen(rs) * |ts|
  }

  // ---- generation ----

  /** The template generator a medium uses. */
  datatype SynthKind = AudioTemplate | ImageTemplate | VideoTemplate

  function SynthFor(medium: string): SynthKind
    requires medium in SUPPORTED_MEDIUM
  {
    if medium == "audio" then AudioTemplate
    else if medium == "image" then ImageTemplate
    else VideoTemplate
  }

  /** The templates made for `names` in turn, and whether a maker call failed and ended the run. */
  datatype Synthesis = Synthesis(made: seq<Template>, failed: bool)

  /**
   * The template maker called on each name in turn until one fails: the
   * templates made before the failure are kept, and the failure ends the run.
   */
  function Synthesize(kind: SynthKind, names: seq<string>, synthesize: (SynthKind, string) -> Option<Template>): Synthesis {
    if names == [] then Synthesis([], false)
    else
      var before := Synthesize(kind, names[..|names| - 1], synthesize);
      if before.failed then before
      else
        match synthesize(kind, names[|names| - 1])
        case None => Synthesis(before.made, true)
        case Some(t) => Synthesis(before.made + [t], false)
  }

  /**
   * The templates made are those of a prefix of `names`, one per name; the
   * run failed exactly when that prefix is not all of `names`, and then the
   * maker failed on the first name after it.
   */
  lemma {:induction false} SynthesizeSpec(kind: SynthKind, names: seq<string>, synthesize: (SynthKind, string) -> Option<Template>)
    ensures |Synthesize(kind, names, synthesize).made| <= |names|
    ensures forall i :: 0 <= i < |Synthesize(kind, names, synthesize).made| ==>
      synthesize(kind, names[i]) == Some(Synthesize(kind, names, synthesize).made[i])
    ensures Synthesize(kind, names, synthesize).failed <==> |Synthesize(kind, names, synthesize).made| < |names|
    ensures Synthesize(kind, names, synthesize).failed ==>
      synthesize(kind, names[|Synthesize(kind, names, synthesize).made|]).None?
  {
    if names != [] {
      var init := names[..|names| - 1];
      SynthesizeSpec(kind, init, synthesize);
      var before := Synthesize(kind, init, synthesize);
      forall i | 0 <= i < |before.made| ensures names[i] == init[i] {}
    }
  }

  /** One more name after a run that has not failed: the maker is called on it. */
  lemma SynthesizeNext(kind: SynthKind, names: seq<string>, name: string, synthesize: (SynthKind, string) -> Option<Template>)
    requires !Synthesize(kind, names, synthesize).failed
    ensures synthesize(kind, name).None? ==>
      Synthesize(kind, names + [name], synthesize) == Synthesis(Synthesize(kind, names, synthesize).made, true)
    ensures synthesize(kind, name).Some? ==>
      Synthesize(kind, names + [name], synthesize) == Synthesis(Synthesize(kind, names, synthesize).made + [synthesize(kind, name).value], false)
  {
    assert (names + [name])[..|names|] == names;
  }

  predicate NoDuplicates(xs: seq<string>) {
    forall i, j :: 0 <= i < j < |xs| ==> xs[i] != xs[j]
  }

  /**
   * One step of walking `requested` while keeping its distinct names in
   * first-seen order: a new name is appended, a seen one is skipped.
   */
  lemma DistinctStep(order: seq<string>, seen: set<string>, requested: seq<string>, i: nat)
    requires i < |requested| && NoDuplicates(order)
    requires forall x :: x in order <==> x in seen
    requires forall x :: x in seen <==> x in requested[..i]
    ensures requested[i] !in seen ==> NoDuplicates(order + [requested[i]])
    ensures requested[i] !in seen ==> forall x :: x in order + [requested[i]] <==> x in seen + {requested[i]}
    ensures forall x :: x in seen + {requested[i]} <==> x in requested[..i + 1]
  {
    assert requested[..i + 1] == requested[..i] + [requested[i]];
  }

  /** `itertools.product(recipes, templates)`: recipe-major, template-minor. */
  function Pairs(rs: seq<Recipe>, ts: seq<Template>): seq<(Recipe, Template)> {
    if rs == [] then [] else Row(rs[0], ts) + Pairs(rs[1..], ts)
  }

  /** One recipe paired with every template, in order. */
  function Row(r: Recipe, ts: seq<Template>): seq<(Recipe, Template)> {
    seq(|ts|, j requires 0 <= j < |ts| => (r, ts[j]))
  }

  datatype CorpusError = ToolFailure(toolError: ToolError) | ExecFailure(argv: seq<string>)

  /** What generating a corpus hands out, issues, and fails with. */
  datatype Outcome = Outcome(paths: seq<Path>, log: seq<seq<string>>, error: Option<CorpusError>)

  function Prefixed(paths: seq<Path>, log: seq<seq<string>>, o: Outcome): Outcome {
    Outcome(paths + o.paths, log + o.log, o.error)
  }

  /**
   * One fresh generator for `recipe` holding only `template`, drained: the
   * paths handed out, the calls issued, and what stopped it, if anything.
   */
  function PairOutcome(recipe: Recipe, template: Template, dest: string, ffmpegAvailable: bool, imagemagickAvailable: bool,
                       run: seq<string> -> bool): Outcome
  {
    var sel := SelectTool(recipe.tool, ffmpegAvailable, imagemagickAvailable);
    if sel.Err? then Outcome([], [], Some(ToolFailure(sel.error)))
    else
      var jobs := Jobs(sel.value, recipe, dest, [template]);
      var k := Completed(jobs, run);
      Outcome(PathsOf(jobs[..k]), ArgvsOf(Issued(jobs, run)),
              if k < |jobs| then Some(ExecFailure(jobs[k].argv)) else None)
  }

  /** Every pair's outcome, in the order the pairs are run. */
  function PairOutcomes(pairs: seq<(Recipe, Template)>, dest: string, ffmpegAvailable: bool, imagemagickAvailable: bool,
                        run: seq<string> -> bool): seq<Outcome>
  {
    seq(|pairs|, i requires 0 <= i < |pairs| =>
      PairOutcome(pairs[i].0, pairs[i].1, dest, ffmpegAvailable, imagemagickAvailable, run))
  }

  /** Every (recipe, template) pair run in order until the first one that stops. */
  function CorpusOutcome(rs: seq<Recipe>, ts: seq<Template>, dest: string, ffmpegAvailable: bool, imagemagickAvailable: bool,
                         run: seq<string> -> bool): Outcome
  {
    Drain(PairOutcomes(Pairs(rs, ts), dest, ffmpegAvailable, imagemagickAvailable, run))
  }

  /** Outcomes taken in order: the first one that stops ends the whole run. */
  function Drain(heads: seq<Outcome>): Outcome {
    if heads == [] then Outcome([], [], None)
    else if heads[0].error.Some? then heads[0]
    else Prefixed(heads[0].paths, heads[0].log, Drain(heads[1..]))
  }

  // ---- tidying the directory ----

  /** Whether `n` is the file of one of the templates `ts`. */
  predicate IsTemplateFile(dest: string, n: string, ts: seq<Template>) {
    exists i :: 0 <= i < |ts| && ts[i].file == PathString(Path(dest, n))
  }

  /** The directory after every template's file is unlinked, missing ones ignored. */
  function Unlinked(files: map<string, Bytes>, dest: string, ts: seq<Template>): map<string, Bytes> {
    map n | n in files && !IsTemplateFile(dest, n, ts) :: files[n]
  }

  /** The files not in `removed`, with their original contents. */
  function Remaining(files: map<string, Bytes>, removed: set<string>): map<string, Bytes> {
    map n | n in files && n !in removed :: files[n]
  }

  /** Some name already walked has the same contents as `n` and sorts before it. */
  predicate Dominated(files: map<string, Bytes>, walked: set<string>, n: string)
    requires walked <= files.Keys && n in files
  {
    exists m :: m in walked && files[m] == files[n] && StrLess(m, n)
  }

  /** The names among `s`, other than `f`, whose contents equal `f`'s. */
  function SameAs(files: map<string, Bytes>, s: set<string>, f: string): set<string>
    requires s <= files.Keys && f in files
  {
    set n | n in s && n != f && files[n] == files[f]
  }

  /** What the inner walk for `first` deletes after seeing `seen`: nothing if `first` is already gone. */
  function Copies(files: map<string, Bytes>, removed: set<string>, seen: set<string>, first: string): set<string>
    requires seen <= files.Keys && first in files
  {
    if first in removed then {} else SameAs(files, seen, first)
  }

  class Replicator {
    const medium: string
    const dest: string
    const out: Directory
    var recipes: seq<Recipe>
    var templates: seq<Template>

    constructor (medium: string, dest: string, out: Directory)
      requires medium in SUPPORTED_MEDIUM
      ensures this.medium == medium && this.dest == dest && this.out == out
      ensures recipes == [] && templates == []
    {
      this.medium := medium;
      this.dest := dest;
      this.out := out;
      recipes := [];
      templates := [];
    }

    /** `len(replicator)`. */
    function Len(): nat
      reads this
    {
      Preflight(recipes, templates)
    }

    /**
     * `generate_templates`: the medium's template maker is called once per
     * distinct requested name, in some order of the distinct names
     * (`order`), and each template made is appended. A maker that fails
     * raises out of the loop: the templates appended before it stay, and
     * `failed` is set.
     */
    method GenerateTemplates(requested: seq<string>, synthesize: (SynthKind, string) -> Option<Template>)
      returns (failed: bool, ghost order: seq<string>)
      requires medium in SUPPORTED_MEDIUM
      modifies this
      ensures NoDuplicates(order) && forall x :: x in order ==> x in requested
      ensures !failed ==> forall x :: x in requested ==> x in order
      ensures failed == Synthesize(SynthFor(medium), order, synthesize).failed
      ensures templates == old(templates) + Synthesize(SynthFor(medium), order, synthesize).made
      ensures recipes == old(recipes)
    {
      var kind := SynthFor(medium);
      var seen: set<string> := {};
      order := [];
      failed := false;
      var i := 0;
      while i < |requested| && !failed
        invariant 0 <= i <= |requested|
        invariant NoDuplicates(order)
        invariant forall x :: x in order <==> x in seen
        invariant forall x :: x in seen <==> x in requested[..i]
        invariant failed == Synthesize(kind, order, synthesize).failed
        invariant templates == old(templates) + Synthesize(kind, order, synthesize).made
        invariant recipes == old(recipes)
      {
        var name := requested[i];
        DistinctStep(order, seen, requested, i);
        if name !in seen {
          var made := synthesize(kind, name);
          SynthesizeNext(kind, order, name, synthesize);
          order := order + [name];
          if made.None? {
            failed := true;
          } else {
            templates := templates + [made.value];
          }
          seen := seen + {name};
        }
        i := i + 1;
      }
      if !failed {
        assert requested[..i] == requested;
      }
    }

    /**
     * `generate_corpus`: one fresh generator per (recipe, template) pair,
     * recipe-major, each drained before the next; `paths` are the files
     * handed out, `err` what ended the run early.
     */
    method GenerateCorpus(ffmpegAvailable: bool, imagemagickAvailable: bool, run: seq<string> -> bool)
      returns (paths: seq<Path>, err: Option<CorpusError>, ghost log: seq<seq<string>>)
      ensures paths == CorpusOutcome(recipes, templates, dest, ffmpegAvailable, imagemagickAvailable, run).paths
      ensures err == CorpusOutcome(recipes, templates, dest, ffmpegAvailable, imagemagickAvailable, run).error
      ensures log == CorpusOutcome(recipes, templates, dest, ffmpegAvailable, imagemagickAvailable, run).log
    {
      paths, err, log := RunPairs(Pairs(recipes, templates), dest, ffmpegAvailable, imagemagickAvailable, run);
    }

    /**
     * `remove_duplicates`: walk the names in sorted order; each one not yet
     * removed deletes every other remaining file with the same contents.
     */
    method RemoveDuplicates()
      modifies out
      ensures out.files == Deduped(old(out.files))
    {
      ghost var original := out.files;
      var names := out.files.Keys;
      var removed: set<string> := {};
      var todo := names;
      ghost var walked: set<string> := {};
      while todo != {}
        invariant Walking(original, walked, todo, removed)
        invariant out.files == Remaining(original, removed)
        decreases |todo|
      {
        MinExists(todo);
        var first :| first in todo && forall t :: t in todo && t != first ==> StrLess(first, t);
        ghost var before := removed;
        removed := DropCopiesOf(first, names, removed, original);
        WalkNext(original, walked, todo, before, removed, first);
        todo := todo - {first};
        walked := walked + {first};
      }
      WalkDone(original, walked, removed);
    }

    /** The inner walk of `remove_duplicates`: unless `first` is gone, delete every other remaining copy of it. */
    method DropCopiesOf(first: string, names: set<string>, removed: set<string>, ghost original: map<string, Bytes>)
      returns (removedAfter: set<string>)
      requires names == original.Keys && first in names && removed <= names
      requires out.files == Remaining(original, removed)
      modifies out
      ensures removedAfter == removed + Copies(original, removed, names, first)
      ensures out.files == Remaining(original, removedAfter)
    {
      removedAfter := removed;
      var rest := names;
      while rest != {}
        invariant rest <= names
        invariant removedAfter == removed + Copies(original, removed, names - rest, first)
        invariant out.files == Remaining(original, removedAfter)
        decreases |rest|
      {
        var other :| other in rest;
        ghost var seen := names - rest;
        rest := rest - {other};
        assert names - rest == seen + {other};
        CopiesStep(original, removed, seen, other, first);
        if first !in removedAfter && other !in removedAfter && first != other && out.files[first] == out.files[other] {
          RemainingRemove(original, removedAfter, other);
          out.files := out.files - {other};
          removedAfter := removedAfter + {other};
        }
      }
      assert names - rest == names;
    }

    /** `remove_templates`: unlink every template's file, ignoring files already gone. */
    method RemoveTemplates()
      modifies out
      ensures out.files == Unlinked(old(out.files), dest, templates)
    {
      var i := 0;
      while i < |templates|
        invariant 0 <= i <= |templates|
        invariant out.files == Unlinked(old(out.files), dest, templates[..i])
      {
        var file := templates[i].file;
        out.files := map n | n in out.files && PathString(Path(dest, n)) != file :: out.files[n];
        assert templates[..i + 1] == templates[..i] + [templates[i]];
        i := i + 1;
      }
      assert templates[..i] == templates;
    }
  }

  /** The loop of `generate_corpus`: run the pairs in order, stopping at the first that fails. */
  method RunPairs(pairs: seq<(Recipe, Template)>, dest: string, ffmpegAvailable: bool, imagemagickAvailable: bool,
                  run: seq<string> -> bool)
    returns (paths: seq<Path>, err: Option<CorpusError>, ghost log: seq<seq<string>>)
    ensures Outcome(paths, log, err) == Drain(PairOutcomes(pairs, dest, ffmpegAvailable, imagemagickAvailable, run))
  {
    ghost var heads := PairOutcomes(pairs, dest, ffmpegAvailable, imagemagickAvailable, run);
    paths, err, log := [], None, [];
    var p := 0;
    while p < |pairs|
      invariant 0 <= p <= |pairs| == |heads|
      invariant Drain(heads) == Prefixed(paths, log, Drain(heads[p..]))
      invariant err == None
    {
      var produced, failure, issued := RunPair(pairs[p].0, pairs[p].1, dest, ffmpegAvailable, imagemagickAvailable, run);
      DrainStep(heads, p, paths, log, Outcome(produced, issued, failure));
      paths := paths + produced;
      log := log + issued;
      if failure.Some? {
        err := failure;
        return;
      }
      p := p + 1;
    }
    DrainEnd(heads, paths, log);
  }

  /**
   * One iteration of `generate_corpus`: load a generator for `recipe`, give
   * it `template`, and drain it.
   */
  method RunPair(recipe: Recipe, template: Template, dest: string, ffmpegAvailable: bool, imagemagickAvailable: bool,
                 run: seq<string> -> bool)
    returns (paths: seq<Path>, err: Option<CorpusError>, ghost log: seq<seq<string>>)
    ensures paths == PairOutcome(recipe, template, dest, ffmpegAvailable, imagemagickAvailable, run).paths
    ensures err == PairOutcome(recipe, template, dest, ffmpegAvailable, imagemagickAvailable, run).error
    ensures log == PairOutcome(recipe, template, dest, ffmpegAvailable, imagemagickAvailable, run).log
  {
    var res := LoadGenerator(recipe, dest, ffmpegAvailable, imagemagickAvailable);
    if res.Err? {
      return [], Some(ToolFailure(res.error)), [];
    }
    var generator := res.value;
    generator.AddTemplate(template);
    var failed;
    paths, failed, log := generator.Generate(run);
    err := if failed.Some? then Some(ExecFailure(failed.value)) else None;
  }

  /**
   * `Replicator(medium, dest, recipes)`: load every recipe document,
   * keeping those of `medium`; the first load error is raised.
   */
  method NewReplicator(medium: string, dest: string, out: Directory, docs: seq<Document>)
    returns (res: Result<Replicator, RecipeError>)
    requires medium in SUPPORTED_MEDIUM
    requires forall i :: 0 <= i < |docs| ==> Shaped(docs[i])
    ensures KeptRecipes(medium, docs).Err? ==> res == Err(KeptRecipes(medium, docs).error)
    ensures KeptRecipes(medium, docs).Ok? ==>
      res.Ok? && fresh(res.value) &&
      res.value.medium == medium && res.value.dest == dest && res.value.out == out &&
      res.value.recipes == KeptRecipes(medium, docs).value && res.value.templates == []
  {
    var replicator := new Replicator(medium, dest, out);
    ghost var loads := Loads(docs);
    var i := 0;
    while i < |docs|
      invariant 0 <= i <= |docs|
      invariant Kept(medium, loads[..i]) == Ok(replicator.recipes)
      invariant replicator.templates == []
    {
      assert loads[..i + 1][..i] == loads[..i];
      var loaded := Load(docs[i]);
      assert loaded == loads[i];
      if loaded.Err? {
        KeptErrorStays(medium, loads, i + 1);
        return Err(loaded.error);
      }
      if loaded.value.medium == medium {
        replicator.recipes := replicator.recipes + [loaded.value];
      }
      i := i + 1;
    }
    assert loads[..i] == loads;
    return Ok(replicator);
  }

  // ---- proof steps ----

  /** Once a prefix of the load results fails, so does the whole list, with the same error. */
  lemma {:induction false} KeptErrorStays(medium: string, loads: seq<Result<Recipe, RecipeError>>, n: nat)
    requires n <= |loads| && Kept(medium, loads[..n]).Err?
    ensures Kept(medium, loads) == Kept(medium, loads[..n])
    decreases |loads|
  {
    if n < |loads| {
      var init := loads[..|loads| - 1];
      assert init[..n] == loads[..n];
      KeptErrorStays(medium, init, n);
    } else {
      assert loads[..n] == loads;
    }
  }

  /**
   * The outer walk of `remove_duplicates` part-way: every walked name sorts
   * before every name still to walk, and a name has been removed exactly
   * when a walked name with the same contents sorts before it.
   */
  predicate Walking(files: map<string, Bytes>, walked: set<string>, todo: set<string>, removed: set<string>) {
    walked !! todo && walked + todo == files.Keys && removed <= files.Keys &&
    (forall a, b :: a in walked && b in todo ==> StrLess(a, b)) &&
    forall n :: n in files ==> (n in removed <==> Dominated(files, walked, n))
  }

  lemma WalkNext(files: map<string, Bytes>, walked: set<string>, todo: set<string>,
                 before: set<string>, removed: set<string>, first: string)
    requires Walking(files, walked, todo, before)
    requires first in todo && forall t :: t in todo && t != first ==> StrLess(first, t)
    requires removed == before + Copies(files, before, files.Keys, first)
    ensures Walking(files, walked + {first}, todo - {first}, removed)
    ensures |todo - {first}| < |todo|
  {
    assert first in before ==> removed == before;
    assert first !in before ==> removed == before + SameAs(files, files.Keys, first);
    WalkStep(files, walked, todo, before, removed, first);
    WalkAdvance(files.Keys, walked, todo, first);
  }

  lemma WalkAdvance(names: set<string>, walked: set<string>, todo: set<string>, first: string)
    requires walked !! todo && walked + todo == names
    requires first in todo && forall t :: t in todo && t != first ==> StrLess(first, t)
    requires forall a, b :: a in walked && b in todo ==> StrLess(a, b)
    ensures walked + {first} !! todo - {first} && (walked + {first}) + (todo - {first}) == names
    ensures forall a, b :: a in walked + {first} && b in todo - {first} ==> StrLess(a, b)
    ensures |todo - {first}| < |todo|
  {
  }

  /** Walking one more name, the least not yet walked, keeps the removed set exact. */
  lemma WalkStep(files: map<string, Bytes>, walked: set<string>, todo: set<string>,
                 before: set<string>, removed: set<string>, first: string)
    requires walked !! todo && walked + todo == files.Keys
    requires first in todo && forall t :: t in todo && t != first ==> StrLess(first, t)
    requires forall a, b :: a in walked && b in todo ==> StrLess(a, b)
    requires forall n :: n in files ==> (n in before <==> Dominated(files, walked, n))
    requires first in before ==> removed == before
    requires first !in before ==> removed == before + SameAs(files, files.Keys, first)
    ensures forall n :: n in files ==> (n in removed <==> Dominated(files, walked + {first}, n))
  {
    var next := walked + {first};
    forall n | n in files
      ensures n in removed <==> Dominated(files, next, n)
    {
      if first in before {
        if Dominated(files, next, n) {
          var m :| m in next && files[m] == files[n] && StrLess(m, n);
          if m == first {
            var m0 :| m0 in walked && files[m0] == files[first] && StrLess(m0, first);
            StrLessTransitive(m0, first, n);
            assert Dominated(files, walked, n);
          }
        }
      } else {
        assert !Dominated(files, walked, first);
        if n in SameAs(files, files.Keys, first) {
          StrLessTotal(first, n);
          assert StrLess(first, n);
          assert Dominated(files, next, n);
        }
        if Dominated(files, next, n) {
          var m :| m in next && files[m] == files[n] && StrLess(m, n);
          if m == first {
            StrLessIrreflexive(first);
            assert n in SameAs(files, files.Keys, first);
          }
        }
      }
    }
  }

  /** With every name walked, the files left are exactly the deduplicated directory. */
  lemma WalkDone(files: map<string, Bytes>, walked: set<string>, removed: set<string>)
    requires Walking(files, walked, {}, removed)
    ensures Remaining(files, removed) == Deduped(files)
  {
    assert walked == files.Keys;
    forall n | n in files
      ensures n !in removed <==> FirstOfClass(files, n)
    {
    }
  }

  lemma PrefixedTwice(paths: seq<Path>, log: seq<seq<string>>, more: seq<Path>, moreLog: seq<seq<string>>, o: Outcome)
    ensures Prefixed(paths, log, Prefixed(more, moreLog, o)) == Prefixed(paths + more, log + moreLog, o)
  {
    assert paths + (more + o.paths) == (paths + more) + o.paths;
    assert log + (moreLog + o.log) == (log + moreLog) + o.log;
  }

  lemma DrainStep(heads: seq<Outcome>, p: nat, paths: seq<Path>, log: seq<seq<string>>, o: Outcome)
    requires p < |heads| && heads[p] == o
    requires Drain(heads) == Prefixed(paths, log, Drain(heads[p..]))
    ensures o.error.Some? ==> Drain(heads) == Outcome(paths + o.paths, log + o.log, o.error)
    ensures o.error.None? ==> Drain(heads) == Prefixed(paths + o.paths, log + o.log, Drain(heads[p + 1..]))
  {
    DrainCons(heads, p);
    PrefixedTwice(paths, log, o.paths, o.log, Drain(heads[p + 1..]));
  }

  lemma DrainEnd(heads: seq<Outcome>, paths: seq<Path>, log: seq<seq<string>>)
    requires Drain(heads) == Prefixed(paths, log, Drain(heads[|heads|..]))
    ensures Drain(heads) == Outcome(paths, log, None)
  {
    assert heads[|heads|..] == [];
    assert paths + [] == paths && log + [] == log;
  }

  lemma DrainCons(heads: seq<Outcome>, p: nat)
    requires p < |heads|
    ensures Drain(heads[p..]) ==
      if heads[p].error.Some? then heads[p] else Prefixed(heads[p].paths, heads[p].log, Drain(heads[p + 1..]))
  {
    assert heads[p..][0] == heads[p];
    assert heads[p..][1..] == heads[p + 1..];
  }

  lemma RemainingRemove(files: map<string, Bytes>, removed: set<string>, n: string)
    ensures Remaining(files, removed + {n}) == Remaining(files, removed) - {n}
  {
  }

  lemma CopiesStep(files: map<string, Bytes>, removed: set<string>, seen: set<string>, other: string, first: string)
    requires seen <= files.Keys && other in files && first in files && removed <= files.Keys
    ensures var current := removed + Copies(files, removed, seen, first);
      var next := removed + Copies(files, removed, seen + {other}, first);
      if first !in current && other !in current && first != other && files[first] == files[other]
      then next == current + {other}
      else next == current
  {
  }

  // ---- properties: loading ----

  /** Construction succeeds exactly when every document loads. */
  lemma {:induction false} KeptOk(medium: string, loads: seq<Result<Recipe, RecipeError>>)
    ensures Kept(medium, loads).Ok? <==> forall i :: 0 <= i < |loads| ==> loads[i].Ok?
  {
    if loads != [] {
      var init := loads[..|loads| - 1];
      KeptOk(medium, init);
      assert forall i :: 0 <= i < |init| ==> init[i] == loads[i];
    }
  }

  /** Every kept recipe was loaded from some document and has the replicator's medium. */
  lemma {:induction false} KeptSound(medium: string, loads: seq<Result<Recipe, RecipeError>>)
    requires Kept(medium, loads).Ok?
    ensures forall r :: r in Kept(medium, loads).value ==>
      r.medium == medium && exists i :: 0 <= i < |loads| && loads[i] == Ok(r)
  {
    if loads != [] {
      var init := loads[..|loads| - 1];
      KeptSound(medium, init);
      var kept := Kept(medium, init).value;
      forall x | x in Kept(medium, loads).value
        ensures x.medium == medium && exists i :: 0 <= i < |loads| && loads[i] == Ok(x)
      {
        if x in kept {
          var i :| 0 <= i < |init| && init[i] == Ok(x);
          assert loads[i] == Ok(x);
        } else {
          assert loads[|loads| - 1] == Ok(x);
        }
      }
    }
  }

  /** No loaded recipe of the replicator's medium is skipped. */
  lemma {:induction false} KeptComplete(medium: string, loads: seq<Result<Recipe, RecipeError>>, i: nat)
    requires Kept(medium, loads).Ok?
    requires i < |loads| && loads[i].Ok? && loads[i].value.medium == medium
    ensures loads[i].value in Kept(medium, loads).value
  {
    var init := loads[..|loads| - 1];
    if i < |init| {
      assert init[i] == loads[i];
      KeptComplete(medium, init, i);
    }
  }

  /** A failed construction raises the error of the first document that does not load. */
  lemma {:induction false} KeptFirstError(medium: string, loads: seq<Result<Recipe, RecipeError>>)
    requires Kept(medium, loads).Err?
    ensures exists i ::
      0 <= i < |loads| && loads[i] == Err(Kept(medium, loads).error) &&
      forall j :: 0 <= j < i ==> loads[j].Ok?
  {
    var init := loads[..|loads| - 1];
    assert forall i :: 0 <= i < |init| ==> init[i] == loads[i];
    if Kept(medium, init).Err? {
      KeptFirstError(medium, init);
    } else {
      KeptOk(medium, init);
    }
  }

  /** The replicator holds only validated recipes of its medium. */
  lemma KeptRecipesValid(medium: string, docs: seq<Document>)
    requires forall i :: 0 <= i < |docs| ==> Shaped(docs[i])
    requires KeptRecipes(medium, docs).Ok?
    ensures forall r :: r in KeptRecipes(medium, docs).value ==> r.medium == medium && Valid(r)
  {
    var loads := Loads(docs);
    KeptSound(medium, loads);
    forall r | r in KeptRecipes(medium, docs).value
      ensures Valid(r)
    {
      var i :| 0 <= i < |loads| && loads[i] == Ok(r);
      LoadValid(docs[i]);
    }
  }

  // ---- properties: the generation order and the pre-flight count ----

  lemma {:induction false} PairsCount(rs: seq<Recipe>, ts: seq<Template>)
    ensures |Pairs(rs, ts)| == |rs| * |ts|
  {
    if rs != [] {
      PairsCount(rs[1..], ts);
    }
  }

  /** `product` order: pair `i * |ts| + j` is recipe `i` with template `j`. */
  lemma {:induction false} PairsAt(rs: seq<Recipe>, ts: seq<Template>, i: nat, j: nat)
    requires i < |rs| && j < |ts|
    ensures |Pairs(rs, ts)| == |rs| * |ts|
    ensures i * |ts| + j < |Pairs(rs, ts)| && Pairs(rs, ts)[i * |ts| + j] == (rs[i], ts[j])
  {
    PairsCount(rs, ts);
    if i > 0 {
      PairsAt(rs[1..], ts, i - 1, j);
      assert i * |ts| + j == |ts| + ((i - 1) * |ts| + j);
    }
  }

  /** Every pair is a recipe of the replicator with one of its templates. */
  lemma {:induction false} PairsMember(rs: seq<Recipe>, ts: seq<Template>, n: nat)
    requires n < |Pairs(rs, ts)|
    ensures Pairs(rs, ts)[n].0 in rs && Pairs(rs, ts)[n].1 in ts
  {
    if n >= |ts| {
      PairsMember(rs[1..], ts, n - |ts|);
    }
  }

  /** Files handed out across a sequence of outcomes. */
  function PathCount(heads: seq<Outcome>): nat {
    if heads == [] then 0 else |heads[0].paths| + PathCount(heads[1..])
  }

  lemma {:induction false} PathCountAppend(a: seq<Outcome>, b: seq<Outcome>)
    ensures PathCount(a + b) == PathCount(a) + PathCount(b)
  {
    if a == [] {
      assert a + b == b;
    } else {
      assert (a + b)[0] == a[0];
      assert (a + b)[1..] == a[1..] + b;
      PathCountAppend(a[1..], b);
    }
  }

  /**
   * Draining stops at the first outcome that stops, reports that
   * outcome's error, and succeeds exactly when none stops; a successful
   * run hands out every outcome's files.
   */
  lemma {:induction false} DrainSpec(heads: seq<Outcome>)
    ensures Drain(heads).error.None? <==> forall i :: 0 <= i < |heads| ==> heads[i].error.None?
    ensures Drain(heads).error.Some? ==> exists i ::
      0 <= i < |heads| && heads[i].error == Drain(heads).error &&
      forall j :: 0 <= j < i ==> heads[j].error.None?
    ensures Drain(heads).error.None? ==> |Drain(heads).paths| == PathCount(heads)
  {
    if heads != [] && heads[0].error.None? {
      DrainSpec(heads[1..]);
      assert forall i :: 1 <= i < |heads| ==> heads[i] == heads[1..][i - 1];
      if Drain(heads).error.Some? {
        var i :| 0 <= i < |heads[1..]| && heads[1..][i].error == Drain(heads).error &&
          forall j :: 0 <= j < i ==> heads[1..][j].error.None?;
        assert heads[i + 1].error == Drain(heads).error;
      }
    }
  }

  /**
   * One generator run succeeds exactly when its tool is available and
   * every call it issues succeeds; it then hands out one file per item
   * of the recipe.
   */
  lemma PairOutcomeSpec(r: Recipe, t: Template, dest: string, ffmpegAvailable: bool, imagemagickAvailable: bool,
                        run: seq<string> -> bool)
    ensures var sel := SelectTool(r.tool, ffmpegAvailable, imagemagickAvailable);
      var o := PairOutcome(r, t, dest, ffmpegAvailable, imagemagickAvailable, run);
      (o.error.None? <==>
        sel.Ok? && forall i :: 0 <= i < |Jobs(sel.value, r, dest, [t])| ==> run(Jobs(sel.value, r, dest, [t])[i].argv)) &&
      (o.error.None? ==> |o.paths| == Len(r)) &&
      (o.error.Some? && o.error.value.ToolFailure? ==> sel == Err(o.error.value.toolError))
  {
    var sel := SelectTool(r.tool, ffmpegAvailable, imagemagickAvailable);
    if sel.Ok? {
      var jobs := Jobs(sel.value, r, dest, [t]);
      JobsCount(sel.value, r, dest, [t]);
      assert jobs[..|jobs|] == jobs;
    }
  }

  /** Items across the recipes of a sequence of pairs. */
  function PairCount(pairs: seq<(Recipe, Template)>): nat {
    if pairs == [] then 0 else Len(pairs[0].0) + PairCount(pairs[1..])
  }

  lemma {:induction false} PairCountAppend(a: seq<(Recipe, Template)>, b: seq<(Recipe, Template)>)
    ensures PairCount(a + b) == PairCount(a) + PairCount(b)
  {
    if a == [] {
      assert a + b == b;
    } else {
      assert (a + b)[0] == a[0];
      assert (a + b)[1..] == a[1..] + b;
      PairCountAppend(a[1..], b);
    }
  }

  lemma {:induction false} RowCount(r: Recipe, ts: seq<Template>)
    ensures PairCount(Row(r, ts)) == |ts| * Len(r)
  {
    if ts != [] {
      assert Row(r, ts)[1..] == Row(r, ts[1..]);
      RowCount(r, ts[1..]);
    }
  }

  /** Over the pairs in `product` order, the items add up to `len(replicator)`. */
  lemma {:induction false} PairCountPairs(rs: seq<Recipe>, ts: seq<Template>)
    ensures PairCount(Pairs(rs, ts)) == Preflight(rs, ts)
  {
    if rs != [] {
      PairCountAppend(Row(rs[0], ts), Pairs(rs[1..], ts));
      RowCount(rs[0], ts);
      PairCountPairs(rs[1..], ts);
      assert (Len(rs[0]) + TotalLen(rs[1..])) * |ts| == |ts| * Len(rs[0]) + TotalLen(rs[1..]) * |ts|;
    }
  }

  /** Outcomes that each hand out one file per item of their pair's recipe add up to the pairs' count. */
  lemma {:induction false} OutcomesCount(pairs: seq<(Recipe, Template)>, heads: seq<Outcome>)
    requires |heads| == |pairs|
    requires forall i :: 0 <= i < |heads| ==> heads[i].error.None? && |heads[i].paths| == Len(pairs[i].0)
    ensures PathCount(heads) == PairCount(pairs)
  {
    if heads != [] {
      assert forall i :: 0 <= i < |heads| - 1 ==> heads[1..][i] == heads[i + 1] && pairs[1..][i] == pairs[i + 1];
      OutcomesCount(pairs[1..], heads[1..]);
    }
  }

  /**
   * `len(replicator)` is the number of files `generate_corpus` hands out
   * when nothing fails.
   */
  lemma CorpusCount(rs: seq<Recipe>, ts: seq<Template>, dest: string, ffmpegAvailable: bool,
                    imagemagickAvailable: bool, run: seq<string> -> bool)
    ensures var o := Drain(PairOutcomes(Pairs(rs, ts), dest, ffmpegAvailable, imagemagickAvailable, run));
      o.error.None? ==> |o.paths| == Preflight(rs, ts)
  {
    var pairs := Pairs(rs, ts);
    var heads := PairOutcomes(pairs, dest, ffmpegAvailable, imagemagickAvailable, run);
    DrainSpec(heads);
    if Drain(heads).error.None? {
      forall i | 0 <= i < |heads|
        ensures heads[i].error.None? && |heads[i].paths| == Len(pairs[i].0)
      {
        PairOutcomeSpec(pairs[i].0, pairs[i].1, dest, ffmpegAvailable, imagemagickAvailable, run);
      }
      OutcomesCount(pairs, heads);
      PairCountPairs(rs, ts);
    }
  }

  /**
   * Generating from validated recipes never reports an unsupported tool:
   * a tool failure is always a tool that is not installed.
   */
  lemma CorpusToolFailures(rs: seq<Recipe>, ts: seq<Template>, dest: string, ffmpegAvailable: bool,
                           imagemagickAvailable: bool, run: seq<string> -> bool)
    requires forall r :: r in rs ==> Valid(r)
    ensures var o := Drain(PairOutcomes(Pairs(rs, ts), dest, ffmpegAvailable, imagemagickAvailable, run));
      o.error.Some? && o.error.value.ToolFailure? ==> o.error.value.toolError.NotAvailable?
  {
    var pairs := Pairs(rs, ts);
    var heads := PairOutcomes(pairs, dest, ffmpegAvailable, imagemagickAvailable, run);
    DrainSpec(heads);
    if Drain(heads).error.Some? {
      var i :| 0 <= i < |heads| && heads[i].error == Drain(heads).error &&
        forall j :: 0 <= j < i ==> heads[j].error.None?;
      PairsMember(rs, ts, i);
      var r := pairs[i].0;
      PairOutcomeSpec(r, pairs[i].1, dest, ffmpegAvailable, imagemagickAvailable, run);
      ValidToolDispatches(r, ffmpegAvailable, imagemagickAvailable);
      SelectToolSpec(r.tool, ffmpegAvailable, imagemagickAvailable);
    }
  }

  // ---- properties: templates ----

  function SetOf(xs: seq<string>): set<string> {
    set x | x in xs
  }

  lemma {:induction false} SetOfSize(xs: seq<string>)
    ensures |SetOf(xs)| <= |xs|
    ensures NoDuplicates(xs) ==> |SetOf(xs)| == |xs|
  {
    if xs != [] {
      var tail := xs[1..];
      SetOfSize(tail);
      assert SetOf(xs) == {xs[0]} + SetOf(tail);
      if NoDuplicates(xs) {
        assert NoDuplicates(tail) by {
          forall i, j | 0 <= i < j < |tail| ensures tail[i] != tail[j] {
            assert tail[i] == xs[i + 1] && tail[j] == xs[j + 1];
          }
        }
        assert xs[0] !in SetOf(tail);
      }
    }
  }

  lemma SubsetSize(a: set<string>, b: set<string>)
    requires a <= b
    ensures |a| <= |b|
  {
    assert b == a + (b - a);
  }

  /**
   * `generate_templates` adds at most one template per distinct requested
   * name, so never more than requested; when no maker call fails it adds
   * exactly one per distinct name, and one per name when none repeats.
   */
  lemma TemplatesAdded(kind: SynthKind, order: seq<string>, requested: seq<string>, synthesize: (SynthKind, string) -> Option<Template>)
    requires NoDuplicates(order) && forall x :: x in order ==> x in requested
    requires !Synthesize(kind, order, synthesize).failed ==> forall x :: x in requested ==> x in order
    ensures |Synthesize(kind, order, synthesize).made| <= |SetOf(requested)| <= |requested|
    ensures !Synthesize(kind, order, synthesize).failed ==> |Synthesize(kind, order, synthesize).made| == |SetOf(requested)|
    ensures !Synthesize(kind, order, synthesize).failed && NoDuplicates(requested) ==>
      |Synthesize(kind, order, synthesize).made| == |requested|
  {
    SynthesizeSpec(kind, order, synthesize);
    SetOfSize(order);
    SetOfSize(requested);
    SubsetSize(SetOf(order), SetOf(requested));
    if !Synthesize(kind, order, synthesize).failed {
      assert SetOf(order) == SetOf(requested);
    }
  }

  // ---- properties: removing templates ----

  /**
   * After unlinking, no remaining file is a template's file, every other
   * file is untouched, and unlinking again changes nothing.
   */
  lemma UnlinkedSpec(files: map<string, Bytes>, dest: string, ts: seq<Template>)
    ensures forall n :: n in Unlinked(files, dest, ts) ==> n in files && Unlinked(files, dest, ts)[n] == files[n]
    ensures forall n, i :: n in Unlinked(files, dest, ts) && 0 <= i < |ts| ==> ts[i].file != PathString(Path(dest, n))
    ensures forall n :: n in files && !IsTemplateFile(dest, n, ts) ==> n in Unlinked(files, dest, ts)
    ensures Unlinked(Unlinked(files, dest, ts), dest, ts) == Unlinked(files, dest, ts)
  {
  }
}
