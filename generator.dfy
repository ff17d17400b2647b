/**
 * Corpus generators: a generator holds one recipe, a destination directory
 * and the templates added to it, and crosses every template with every
 * item of the recipe's iteration, running the external tool once per pair.
 * The FFmpeg and ImageMagick generators differ only in the command they
 * start with, so one class with a `kind` stands for both.
 */
module Generators {
  import opened Wrappers
  import opened Document
  import opened Text
  import opened Recipes

  /** A template: the name used in output names and the file the tool reads. */
  datatype Template = Template(name: string, file: string)

  datatype ToolKind = FFmpeg | ImageMagick

  const FFMPEG_BIN: string := "ffmpeg"
  const IMAGEMAGICK_BIN: string := "convert"

  /** A file under a directory, `dir / name`. */
  datatype Path = Path(dir: string, name: string)

  /** `str(path)`. */
  function PathString(p: Path): string {
    p.dir + "/" + p.name
  }

  /** `medium-codec-library-template-group-NN.container`, NN zero-padded to two digits. */
  function OutputName(r: Recipe, t: Template, it: Item): string {
    Join([r.medium, r.codec, r.library, t.name, it.group, Pad2(it.index) + "." + r.container], '-')
  }

  /** The part of the command that precedes the flags. */
  function BaseCommand(kind: ToolKind, t: Template): seq<string> {
    match kind
    case FFmpeg => [FFMPEG_BIN, "-i", t.file, "-y"]
    case ImageMagick => [IMAGEMAGICK_BIN, t.file]
  }

  /** One call of the tool: where its output goes and the argv it is started with. */
  datatype Job = Job(path: Path, argv: seq<string>)

  function JobFor(kind: ToolKind, r: Recipe, dest: string, t: Template, it: Item): Job {
    var path := Path(dest, OutputName(r, t, it));
    Job(path, BaseCommand(kind, t) + it.flags + [PathString(path)])
  }

  /** The calls for one template, in the recipe's iteration order. */
  function TemplateJobs(kind: ToolKind, r: Recipe, dest: string, t: Template): seq<Job> {
    var items := Items(r);
    seq(|items|, k requires 0 <= k < |items| => JobFor(kind, r, dest, t, items[k]))
  }

  /** The calls for all templates, template by template in the order they were added. */
  function Jobs(kind: ToolKind, r: Recipe, dest: string, ts: seq<Template>): seq<Job> {
    if ts == [] then []
    else Jobs(kind, r, dest, ts[..|ts| - 1]) + TemplateJobs(kind, r, dest, ts[|ts| - 1])
  }

  function PathsOf(jobs: seq<Job>): seq<Path> {
    seq(|jobs|, i requires 0 <= i < |jobs| => jobs[i].path)
  }

  function ArgvsOf(jobs: seq<Job>): seq<seq<string>> {
    seq(|jobs|, i requires 0 <= i < |jobs| => jobs[i].argv)
  }

  /**
   * How many calls succeed before the first failure, with `run` standing
   * for the external tool (true: it exited successfully).
   */
  function Completed(jobs: seq<Job>, run: seq<string> -> bool): (k: nat)
    ensures k <= |jobs|
    ensures forall i :: 0 <= i < k ==> run(jobs[i].argv)
    ensures k < |jobs| ==> !run(jobs[k].argv)
  {
    if jobs == [] || !run(jobs[0].argv) then 0 else 1 + Completed(jobs[1..], run)
  }

  /** The calls issued: every successful one and the failing one, if any. */
  function Issued(jobs: seq<Job>, run: seq<string> -> bool): seq<Job> {
    var k := Completed(jobs, run);
    if k < |jobs| then jobs[..k + 1] else jobs
  }

  /** Safe names never contain `/` or `.`, so joining them on either splits back. */
  lemma SafeJoinSplit(parts: seq<string>, sep: char)
    requires |parts| >= 1 && (sep == '/' || sep == '.')
    requires forall i :: 0 <= i < |parts| ==> SafeName(parts[i])
    ensures Split(Join(parts, sep), sep) == parts
  {
    forall i | 0 <= i < |parts| ensures sep !in parts[i] {
      if sep in parts[i] {
        SafeNameChars(parts[i], sep);
      }
    }
    JoinSplit(parts, sep);
  }

  /** Adding one template adds its calls at the end. */
  lemma JobAt(kind: ToolKind, r: Recipe, dest: string, t: Template, items: seq<Item>, k: nat)
    requires items == Items(r) && k < |items|
    ensures k < |TemplateJobs(kind, r, dest, t)|
    ensures TemplateJobs(kind, r, dest, t)[k] == JobFor(kind, r, dest, t, items[k])
  {
  }

  lemma PrefixStop<T>(pre: seq<T>, s: seq<T>, k: nat)
    requires k < |s|
    ensures |pre + s[..k]| < |pre + s| && (pre + s)[..|pre + s[..k]| + 1] == (pre + s[..k]) + [s[k]]
  {
    assert (pre + s)[..|pre| + k + 1] == pre + s[..k + 1];
    assert s[..k + 1] == s[..k] + [s[k]];
  }

  lemma PrefixSnoc<T>(pre: seq<T>, s: seq<T>, k: nat)
    requires k < |s|
    ensures pre + s[..k + 1] == (pre + s[..k]) + [s[k]]
  {
    assert s[..k + 1] == s[..k] + [s[k]];
  }

  lemma TemplateDone(kind: ToolKind, r: Recipe, dest: string, ts: seq<Template>, m: nat, prefix: seq<Job>, tjobs: seq<Job>)
    requires m < |ts| && prefix == Jobs(kind, r, dest, ts[..m]) && tjobs == TemplateJobs(kind, r, dest, ts[m])
    ensures prefix + tjobs[..|tjobs|] == Jobs(kind, r, dest, ts[..m + 1])
  {
    JobsPrefix(kind, r, dest, ts, m, tjobs);
    assert tjobs[..|tjobs|] == tjobs;
  }

  lemma JobsPrefix(kind: ToolKind, r: Recipe, dest: string, ts: seq<Template>, m: nat, tjobs: seq<Job>)
    requires m < |ts| && tjobs == TemplateJobs(kind, r, dest, ts[m])
    ensures Jobs(kind, r, dest, ts[..m + 1]) == Jobs(kind, r, dest, ts[..m]) + tjobs
  {
    assert ts[..m + 1][..m] == ts[..m];
  }

  /** The calls for the first `m` templates come first. */
  lemma {:induction false} JobsPrefixOf(kind: ToolKind, r: Recipe, dest: string, ts: seq<Template>, m: nat)
    requires m <= |ts|
    ensures var pre := Jobs(kind, r, dest, ts[..m]);
      |pre| <= |Jobs(kind, r, dest, ts)| && Jobs(kind, r, dest, ts)[..|pre|] == pre
    decreases |ts|
  {
    if m < |ts| {
      var init := ts[..|ts| - 1];
      JobsPrefixOf(kind, r, dest, init, m);
      assert init[..m] == ts[..m];
    } else {
      assert ts[..m] == ts;
    }
  }

  /** Calls that all succeed are all completed and all issued. */
  lemma AllCompleted(jobs: seq<Job>, run: seq<string> -> bool)
    requires forall i :: 0 <= i < |jobs| ==> run(jobs[i].argv)
    ensures Completed(jobs, run) == |jobs| && Issued(jobs, run) == jobs
  {
  }

  /** After successful calls `done`, a failing call `j` ends the run there. */
  lemma FailureAt(jobs: seq<Job>, run: seq<string> -> bool, done: seq<Job>, j: Job)
    requires |done| < |jobs| && jobs[..|done| + 1] == done + [j]
    requires forall i :: 0 <= i < |done| ==> run(done[i].argv)
    requires !run(j.argv)
    ensures Completed(jobs, run) == |done| && jobs[..|done|] == done && jobs[|done|] == j
    ensures Issued(jobs, run) == done + [j]
  {
    assert jobs[..|done|] == (done + [j])[..|done|] == done;
    assert jobs[|done|] == (done + [j])[|done|] == j;
    assert forall i :: 0 <= i < |done| ==> jobs[i] == done[i];
  }

  /** A failure inside a known prefix of the calls is a failure of the whole run. */
  lemma FailureInPrefix(jobs: seq<Job>, p: seq<Job>, run: seq<string> -> bool, done: seq<Job>, j: Job)
    requires |p| <= |jobs| && jobs[..|p|] == p
    requires |done| < |p| && p[..|done| + 1] == done + [j]
    requires forall i :: 0 <= i < |done| ==> run(done[i].argv)
    requires !run(j.argv)
    ensures |done| < |jobs| && Completed(jobs, run) == |done| && jobs[..|done|] == done && jobs[|done|] == j
    ensures Issued(jobs, run) == done + [j]
  {
    assert jobs[..|done| + 1] == jobs[..|p|][..|done| + 1];
    FailureAt(jobs, run, done, j);
  }

  /** A failing call for template `m`, item `k`, after every earlier call succeeded. */
  lemma FailureInside(kind: ToolKind, r: Recipe, dest: string, ts: seq<Template>, m: nat, k: nat,
                      tjobs: seq<Job>, run: seq<string> -> bool, done: seq<Job>)
    requires m < |ts| && tjobs == TemplateJobs(kind, r, dest, ts[m]) && k < |tjobs|
    requires done == Jobs(kind, r, dest, ts[..m]) + tjobs[..k]
    requires forall i :: 0 <= i < |done| ==> run(done[i].argv)
    requires !run(tjobs[k].argv)
    ensures var jobs := Jobs(kind, r, dest, ts);
      |done| < |jobs| && Completed(jobs, run) == |done| && jobs[..|done|] == done && jobs[|done|] == tjobs[k] &&
      Issued(jobs, run) == done + [tjobs[k]]
  {
    var pre := Jobs(kind, r, dest, ts[..m]);
    JobsPrefix(kind, r, dest, ts, m, tjobs);
    JobsPrefixOf(kind, r, dest, ts, m + 1);
    var p := pre + tjobs;
    PrefixStop(pre, tjobs, k);
    FailureInPrefix(Jobs(kind, r, dest, ts), p, run, done, tjobs[k]);
  }

  lemma Snoc(done: seq<Job>, j: Job)
    ensures PathsOf(done + [j]) == PathsOf(done) + [j.path]
    ensures ArgvsOf(done + [j]) == ArgvsOf(done) + [j.argv]
  {
  }

  class CorpusGenerator {
    const kind: ToolKind
    const recipe: Recipe
    const dest: string
    var templates: seq<Template>

    /** A generator for `recipe` writing under `dest`, with no templates yet. */
    constructor (kind: ToolKind, recipe: Recipe, dest: string)
      ensures this.kind == kind && this.recipe == recipe && this.dest == dest
      ensures templates == []
    {
      this.kind := kind;
      this.recipe := recipe;
      this.dest := dest;
      templates := [];
    }

    /** `add_template`: appended after the ones already added. */
    method AddTemplate(t: Template)
      modifies this
      ensures templates == old(templates) + [t]
    {
      templates := templates + [t];
    }

    /** `description`: `medium/library/codec/container`; for a valid recipe the four parts read back. */
    function Description(): (d: string)
      ensures Valid(recipe) ==> Split(d, '/') == [recipe.medium, recipe.library, recipe.codec, recipe.container]
    {
      var parts := [recipe.medium, recipe.library, recipe.codec, recipe.container];
      assert Valid(recipe) ==> Split(Join(parts, '/'), '/') == parts by {
        if Valid(recipe) {
          SafeJoinSplit(parts, '/');
        }
      }
      Join(parts, '/')
    }

    /**
     * `generate`, drained: for each template in turn and each item of the
     * recipe, run the tool and hand out the output path once the call has
     * returned. A failing call ends generation; `failed` is its argv and
     * the paths handed out before it stay handed out. `log` is every argv
     * issued.
     */
    method Generate(run: seq<string> -> bool) returns (paths: seq<Path>, failed: Option<seq<string>>, ghost log: seq<seq<string>>)
      ensures var jobs := Jobs(kind, recipe, dest, templates);
        paths == PathsOf(jobs[..Completed(jobs, run)])
      ensures var jobs := Jobs(kind, recipe, dest, templates);
        failed == (if Completed(jobs, run) < |jobs| then Some(jobs[Completed(jobs, run)].argv) else None)
      ensures log == ArgvsOf(Issued(Jobs(kind, recipe, dest, templates), run))
    {
      ghost var jobs := Jobs(kind, recipe, dest, templates);
      ghost var done: seq<Job> := [];
      paths, failed, log := [], None, [];
      var items := Iterate(recipe);
      var ti := 0;
      while ti < |templates|
        invariant 0 <= ti <= |templates|
        invariant done == Jobs(kind, recipe, dest, templates[..ti])
        invariant forall i :: 0 <= i < |done| ==> run(done[i].argv)
        invariant paths == PathsOf(done) && log == ArgvsOf(done)
      {
        var t := templates[ti];
        ghost var tjobs := TemplateJobs(kind, recipe, dest, t);
        ghost var prefix := done;
        var k := 0;
        while k < |items|
          invariant 0 <= k <= |items| == |tjobs|
          invariant done == prefix + tjobs[..k]
          invariant forall i :: 0 <= i < |done| ==> run(done[i].argv)
          invariant paths == PathsOf(done) && log == ArgvsOf(done)
        {
          var it := items[k];
          var path := Path(dest, OutputName(recipe, t, it));
          var argv := BaseCommand(kind, t) + it.flags + [PathString(path)];
          JobAt(kind, recipe, dest, t, items, k);
          log := log + [argv];
          Snoc(done, tjobs[k]);
          if !run(argv) {
            failed := Some(argv);
            FailureInside(kind, recipe, dest, templates, ti, k, tjobs, run, done);
            return;
          }
          paths := paths + [path];
          PrefixSnoc(prefix, tjobs, k);
          done := done + [tjobs[k]];
          k := k + 1;
        }
        TemplateDone(kind, recipe, dest, templates, ti, prefix, tjobs);
        ti := ti + 1;
      }
      assert templates[..ti] == templates;
      AllCompleted(jobs, run);
      assert jobs[..|jobs|] == jobs;
    }
  }

  // ---- what generation promises ----

  /** One call per template and item: `len(templates) * len(recipe)` in all. */
  lemma {:induction false} JobsCount(kind: ToolKind, r: Recipe, dest: string, ts: seq<Template>)
    ensures |Jobs(kind, r, dest, ts)| == |ts| * Len(r)
  {
    if ts != [] {
      JobsCount(kind, r, dest, ts[..|ts| - 1]);
    }
  }

  /** Template-major order: call `i * len(recipe) + k` is template `i` with item `k`. */
  lemma {:induction false} JobsOrder(kind: ToolKind, r: Recipe, dest: string, ts: seq<Template>, i: nat, k: nat)
    requires i < |ts| && k < Len(r)
    ensures i * Len(r) + k < |Jobs(kind, r, dest, ts)| &&
      Jobs(kind, r, dest, ts)[i * Len(r) + k] == JobFor(kind, r, dest, ts[i], Items(r)[k])
  {
    var L := Len(r);
    var init := ts[..|ts| - 1];
    var pre := Jobs(kind, r, dest, init);
    var last := TemplateJobs(kind, r, dest, ts[|ts| - 1]);
    JobsSplit(kind, r, dest, ts);
    BlockIndex(i, k, L, |ts| - 1);
    var n := i * L + k;
    if i < |ts| - 1 {
      JobsOrder(kind, r, dest, init, i, k);
      IndexLeft(pre, last, n);
    } else {
      IndexRight(pre, last, n);
    }
  }

  /** The calls for all templates but the last, then those for the last. */
  lemma JobsSplit(kind: ToolKind, r: Recipe, dest: string, ts: seq<Template>)
    requires ts != []
    ensures Jobs(kind, r, dest, ts) == Jobs(kind, r, dest, ts[..|ts| - 1]) + TemplateJobs(kind, r, dest, ts[|ts| - 1])
    ensures |Jobs(kind, r, dest, ts[..|ts| - 1])| == (|ts| - 1) * Len(r)
    ensures |TemplateJobs(kind, r, dest, ts[|ts| - 1])| == Len(r)
  {
    JobsCount(kind, r, dest, ts[..|ts| - 1]);
  }

  lemma IndexLeft<T>(a: seq<T>, b: seq<T>, n: nat)
    requires n < |a|
    ensures n < |a + b| && (a + b)[n] == a[n]
  {
  }

  lemma IndexRight<T>(a: seq<T>, b: seq<T>, n: nat)
    requires |a| <= n < |a| + |b|
    ensures n < |a + b| && (a + b)[n] == b[n - |a|]
  {
  }

  /** Index `i * size + k` lies in block `i` of `blocks + 1` blocks of `size`. */
  lemma BlockIndex(i: nat, k: nat, size: nat, blocks: nat)
    requires i <= blocks && k < size
    ensures 0 <= i * size
    ensures i < blocks ==> i * size + k < blocks * size
    ensures i == blocks ==> i * size + k == blocks * size + k
  {
    if i < blocks {
      assert (i + 1) * size <= blocks * size;
    }
  }

  /** Every call writes under `dest`, names its output last, and starts with the tool's own command. */
  lemma {:induction false} JobShape(kind: ToolKind, r: Recipe, dest: string, ts: seq<Template>, n: nat)
    requires n < |Jobs(kind, r, dest, ts)|
    ensures var j := Jobs(kind, r, dest, ts)[n];
      j.path.dir == dest && |j.argv| > 0 && j.argv[|j.argv| - 1] == PathString(j.path) &&
      j.argv[0] == (if kind == FFmpeg then FFMPEG_BIN else IMAGEMAGICK_BIN)
  {
    var init := ts[..|ts| - 1];
    var pre := Jobs(kind, r, dest, init);
    var last := TemplateJobs(kind, r, dest, ts[|ts| - 1]);
    assert Jobs(kind, r, dest, ts) == pre + last;
    if n < |pre| {
      JobShape(kind, r, dest, init, n);
      assert (pre + last)[n] == pre[n];
    } else {
      assert (pre + last)[n] == last[n - |pre|];
    }
  }

  /** With `d` a digit string, `p + "-" + d + "." + c` determines `p` and `d`. */
  lemma NameSuffix(p: string, d: string, q: string, e: string, c: string)
    requires AllDigits(d) && AllDigits(e)
    requires p + "-" + d + "." + c == q + "-" + e + "." + c
    ensures p == q && d == e
  {
    var s := p + "-" + d + "." + c;
    var n := |s| - |"." + c|;
    assert s[..n] == p + "-" + d;
    assert (q + "-" + e + "." + c)[..n] == q + "-" + e;
    DashDigitsUnique(p, d, q, e);
  }

  lemma JoinSix(a: string, b: string, c: string, d: string, e: string, f: string)
    ensures Join([a, b, c, d, e, f], '-') == a + "-" + b + "-" + c + "-" + d + "-" + e + "-" + f
  {
    var xs := [a, b, c, d, e, f];
    assert Join(xs[5..], '-') == f;
    assert Join(xs[4..], '-') == e + "-" + f by { assert xs[4..][1..] == xs[5..]; }
    assert Join(xs[3..], '-') == d + "-" + e + "-" + f by { assert xs[3..][1..] == xs[4..]; }
    assert Join(xs[2..], '-') == c + "-" + d + "-" + e + "-" + f by { assert xs[2..][1..] == xs[3..]; }
    assert Join(xs[1..], '-') == b + "-" + c + "-" + d + "-" + e + "-" + f by { assert xs[1..][1..] == xs[2..]; }
  }

  /** For one recipe and template the output name determines the item's group and index. */
  lemma OutputNameInjective(r: Recipe, t: Template, x: Item, y: Item)
    requires OutputName(r, t, x) == OutputName(r, t, y)
    ensures x.group == y.group && x.index == y.index
  {
    var pre := r.medium + "-" + r.codec + "-" + r.library + "-" + t.name;
    JoinSix(r.medium, r.codec, r.library, t.name, x.group, Pad2(x.index) + "." + r.container);
    JoinSix(r.medium, r.codec, r.library, t.name, y.group, Pad2(y.index) + "." + r.container);
    Pad2Value(x.index);
    Pad2Value(y.index);
    assert OutputName(r, t, x) == (pre + "-" + x.group) + "-" + Pad2(x.index) + "." + r.container;
    assert OutputName(r, t, y) == (pre + "-" + y.group) + "-" + Pad2(y.index) + "." + r.container;
    NameSuffix(pre + "-" + x.group, Pad2(x.index), pre + "-" + y.group, Pad2(y.index), r.container);
    assert x.group == (pre + "-" + x.group)[|pre| + 1..];
    assert y.group == (pre + "-" + y.group)[|pre| + 1..];
    Pad2Injective(x.index, y.index);
  }

  /** For one template the output paths are pairwise distinct, given distinct variation names. */
  lemma NamesDistinct(kind: ToolKind, r: Recipe, dest: string, t: Template, k1: nat, k2: nat)
    requires DistinctKeys(r.variations)
    requires k1 < k2 < |TemplateJobs(kind, r, dest, t)|
    ensures TemplateJobs(kind, r, dest, t)[k1].path != TemplateJobs(kind, r, dest, t)[k2].path
  {
    var items := Items(r);
    ItemKeysDistinct(r, k1, k2);
    if OutputName(r, t, items[k1]) == OutputName(r, t, items[k2]) {
      OutputNameInjective(r, t, items[k1], items[k2]);
    }
  }

  lemma PadZero()
    ensures Pad2(0) == "00"
  {
    assert ShowNat(0) == "0";
  }
}
