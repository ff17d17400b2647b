# corpus-replicator, modelled in Dafny

corpus-replicator builds fuzzing corpora. It reads **recipes**, small YAML
documents that name an encoder and list flag groups. It crosses each recipe
with generated **templates** (input media files), running FFmpeg or
ImageMagick once per (template, flag-set) pair. Afterwards it removes
duplicate outputs and the templates. This project models the core of that
pipeline and proves what it promises:

- **Recipe loading.** The `Recipe` constructor is a validator: it runs its
  checks in a fixed order and raises at the first one that fails.
  - `Recipes.Load` turns a parsed document into a `Recipe` or a
    `RecipeError`.
  - Iteration expands the variation groups into `(group, index, flags)`
    items: the default groups other than the one with the group's name,
    then the flag-set's own tokens.
  - Two Python details are reproduced:
    - `re.match(r"^[a-zA-Z0-9-]+$")`: `$` also matches before one trailing
      newline.
    - A string default-flag group passes validation; `list.extend` then adds
      it one character at a time.
- **`is_resolution`** uses Python's `int()`. That accepts surrounding
  blanks, a sign and single underscores between digits. The blanks `int()`
  skips are the C-locale ones (space, `\t` to `\r`) plus the non-ASCII
  characters `str.isspace()` accepts. The ASCII separators U+001C..U+001F are
  not skipped, although `str.isspace()` accepts them.
- **Generators.** `CorpusGenerator` is a class whose template list
  `add_template` appends to. `Generate` runs one external call per template
  and item, in template-major order. Each call's argv ends with its output
  path, named `medium-codec-library-template-group-NN.container`. A path is
  handed out only after its call returns; the first failing call stops
  generation.
  - The external tool is an oracle `run: seq<string> -> bool`.
  - The argvs issued are recorded in a ghost log.
  - One class with a `kind` (`FFmpeg | ImageMagick`) stands for both tool
    subclasses. They differ only in the command prefix.
- **Dispatch.** `load_generator` picks the generator from the recipe's tool.
  Whether each tool is installed is an input.
- **Replicator.**
  - The constructor loads recipe documents, keeps those of its medium, and
    raises the first load error.
  - `len()` is the pre-flight count.
  - `generate_templates` adds one template per distinct name, until a call
    of the template maker fails; the templates added before it stay.
  - `generate_corpus` runs one fresh generator per (recipe, template) pair,
    recipe-major.
  - `remove_duplicates` walks the names in sorted order. Of each group of
    identical files it keeps the one whose name sorts first.
  - `remove_templates` unlinks every template file.
  - The output directory is a `Directory` object holding a map from file
    names to byte contents.

Files:

- `wrappers.dfy`: Option and Result.
- `document.dfy`: the parsed YAML value and ordered-mapping lookup.
- `text.dfy`: safe names, digits, split and join, and Python's string order.
- `recipe.dfy`: validation, iteration and length.
- `resolution.dfy`: `is_resolution` and `int()`.
- `generator.dfy`: templates, naming, argv, and the generator class.
- `dispatch.dfy`: `load_generator`.
- `dedup.dfy`: what duplicate removal leaves.
- `replicator.dfy`: the `Replicator` class.
- `scenarios.dfy`: the project's own sample recipe worked through.
- `video_scenario.dfy`: the FFmpeg generator's sample video recipe, loaded
  and generated with two templates.

## Model

| member | source | states |
|---|---|---|
| Recipes.Load | src/corpus_replicator/common.py:41-109 | definition of the `Recipe` constructor on a parsed document: the recipe, or the first error it raises; see FirstMissingSpec, BaseFirstOffender, VariationFirstOffender, SupportCheckedLast and LoadValid |
| Recipes.Message | src/corpus_replicator/common.py:53-109 | definition of the texts of the `RecipeError`s the constructor raises; see MissingEntryReported |
| Recipes.FirstErrorSpec | src/corpus_replicator/common.py:66-103 | a validation loop raises nothing exactly when every element passes its check; when it raises, the error is that of the first failing element and every earlier element passed |
| Recipes.FirstMissingSpec | src/corpus_replicator/common.py:49-63 | no `KeyError` is raised exactly when all eight lookups are present; otherwise the key reported is the first absent one in the constructor's lookup order |
| Recipes.MissingEntryReported | src/corpus_replicator/common.py:49-63 | when lookup `j` is the first absent one (base, default_flags, variation, codec, container, library, medium, tool), loading fails with that key and the message `Recipe missing entry '<key>'` |
| Recipes.NoMissingEntryWhenPresent | src/corpus_replicator/common.py:49-63 | when every lookup is present, loading never reports a missing entry |
| Recipes.BaseLoopErrors | src/corpus_replicator/common.py:66-82 | the `base` loop raises only entry, `default_flags` and default-group errors |
| Recipes.VariationLoopErrors | src/corpus_replicator/common.py:84-103 | the variation loop raises only variation-name, incomplete, invalid and invalid-flags errors |
| Recipes.BaseFirstOffender | src/corpus_replicator/common.py:65-82 | with all keys present, the first offending `base` entry in document order (unknown keys included) is the error loading reports |
| Recipes.VariationFirstOffender | src/corpus_replicator/common.py:84-103 | with a clean `base`, the first offending variation group in document order is the error loading reports |
| Recipes.SupportCheckedLast | src/corpus_replicator/common.py:105-109 | medium and tool are checked only after every shape check passes, medium before tool; loading succeeds exactly when both are supported, and each error names the unsupported value |
| Recipes.LoadValid | src/corpus_replicator/common.py:41-109 | an accepted recipe has safe names, a supported medium and tool, non-empty default groups, and at least one variation group, every group a non-empty list of non-empty flag-sets |
| Recipes.StringEntryValid | src/corpus_replicator/common.py:80-82 | after the `base` loop passes, every entry other than `default_flags` is a string matching the safe pattern |
| Recipes.DefaultsValid | src/corpus_replicator/common.py:67-79 | after the `base` loop passes, the default groups have distinct names and none is empty |
| Recipes.VariationsValid | src/corpus_replicator/common.py:84-103 | after the variation loop passes, every group has a safe name and a non-empty list of non-empty flag-sets |
| Recipes.Items | src/corpus_replicator/common.py:111-120 | definition of what iterating a recipe yields; see Iterate, ItemAt, ItemCovered and Override |
| Recipes.Iterate | src/corpus_replicator/common.py:111-120 | the nested loops with `extend` yield exactly the items of the expansion, in order |
| Recipes.ExpandLength | src/corpus_replicator/common.py:111-120 | iteration yields one item per flag-set declared |
| Recipes.Len | src/corpus_replicator/common.py:122-123 | definition of `len(recipe)`, the number of items iteration yields; see LenCountsFlagSets and ExpandLength |
| Recipes.LenCountsFlagSets | src/corpus_replicator/common.py:122-123 | `len(recipe)` is the number of flag-sets across all variation groups and does not depend on the default flags |
| Recipes.ItemAt | src/corpus_replicator/common.py:111-120 | groups come in declaration order and indices 0..k-1 in list order: item `FlagSetCount(vs[..g]) + i` is group `g`'s flag-set `i`, carrying the group's base flags followed by the flag-set's tokens |
| Recipes.ItemCovered | src/corpus_replicator/common.py:111-120 | every item iteration yields is some group's flag-set at that position, with those flags |
| Recipes.ItemKeysDistinct | src/corpus_replicator/common.py:111-120 | with distinct group names, no two items share a (group, index) pair |
| Recipes.BaseFlagsAppend | src/corpus_replicator/common.py:114-117 | collecting base flags over two runs of default groups concatenates the two results |
| Recipes.NoOverride | src/corpus_replicator/common.py:114-117 | when no default group has the variation group's name, the base flags are every default group's tokens in order |
| Recipes.Override | src/corpus_replicator/common.py:114-117 | the default group named like the variation group is left out and every other group's tokens are kept, in order |
| Text.SafeName | src/corpus_replicator/common.py:81 | definition of `re.match(r"^[a-zA-Z0-9-]+$", s)` succeeding; see SafeNameChars and TrailingNewlineAccepted |
| Text.SafeNameChars | src/corpus_replicator/common.py:81 | a safe name contains neither `/` nor `.`; its characters are letters, digits, `-` or the one trailing newline |
| Text.TrailingNewlineAccepted | src/corpus_replicator/common.py:89 | the pattern accepts `mp4\n` although it is not all safe characters, and rejects a second newline, the empty string and other characters |
| Text.Pad2 | src/corpus_replicator/tools/ffmpeg.py:38 | definition of `f"{idx:02d}"`; see Pad2Value, Pad2Injective and PadZero |
| Text.Pad2Value | src/corpus_replicator/tools/ffmpeg.py:38 | `f"{idx:02d}"` has at least two digits and reads back as `idx` |
| Text.Pad2Injective | src/corpus_replicator/tools/ffmpeg.py:38 | distinct indices give distinct padded numbers |
| Text.SplitCount | src/corpus_replicator/common.py:223 | `str.split(sep)` gives one more piece than there are separators |
| Text.SplitJoin | src/corpus_replicator/common.py:223 | joining the pieces of a split on the same separator gives back the string |
| Text.JoinSplit | src/corpus_replicator/common.py:185-192 | splitting a join of separator-free parts gives back the parts |
| Text.StrLessTotal | src/corpus_replicator/core.py:134 | Python's string order relates any two distinct names |
| Text.StrLessTransitive | src/corpus_replicator/core.py:134 | Python's string order is transitive |
| Text.StrLessIrreflexive | src/corpus_replicator/core.py:134 | no name sorts before itself |
| Text.MinExists | src/corpus_replicator/core.py:134 | every non-empty set of names has a least name, the first of `sorted(...)` |
| Resolution.IsResolution | src/corpus_replicator/common.py:213-228 | definition of `is_resolution`; see ResolutionHalves, DigitsAccepted, ResolutionOneSeparator and RejectsSeparatorBlank |
| Resolution.ParseInt | src/corpus_replicator/common.py:224 | definition of `int()` on a string in base 10, `None` for a `ValueError`; see ParseShowNat, ParsePlus, ParseGrouped and RejectsSeparatorBlank |
| Resolution.ParseShowNat | src/corpus_replicator/common.py:224 | `int()` reads a decimal numeral, and the same numeral with a leading minus, as the number and its negation |
| Resolution.ParsePlus | src/corpus_replicator/common.py:224 | `int()` strips the blanks it skips (C-locale blanks and non-ASCII `isspace` characters, not U+001C..U+001F) and accepts a leading `+` |
| Resolution.RejectsSeparatorBlank | src/corpus_replicator/common.py:224 | `int()` does not skip U+001C, so `"\x1c1"` is not a number and `"\x1c1x1"` is not a resolution |
| Resolution.ParseGrouped | src/corpus_replicator/common.py:224 | `int()` accepts single underscores between digits and ignores them |
| Resolution.ResolutionRoundTrip | src/corpus_replicator/common.py:213-228 | `WxH` written out from any two positive numbers is a resolution |
| Resolution.DigitsAccepted | src/corpus_replicator/common.py:213-228 | two numerals with positive values joined by `x` are a resolution |
| Resolution.ResolutionOneSeparator | src/corpus_replicator/common.py:223 | a resolution's lowercased text holds exactly one `x` |
| Resolution.ResolutionHalves | src/corpus_replicator/common.py:213-228 | a resolution is two halves around the `x`, each parsing to an integer greater than zero |
| Resolution.Accepts123x234 | src/corpus_replicator/test_common.py:393 | `123x234` is a resolution |
| Resolution.RejectsNoSeparator | src/corpus_replicator/test_common.py:394-399 | the empty string, `1` and `foo` are not resolutions |
| Resolution.RejectsZero | src/corpus_replicator/test_common.py:396 | `0x1` is not a resolution |
| Resolution.RejectsTwoSeparators | src/corpus_replicator/test_common.py:397 | `1x1x1` is not a resolution |
| Resolution.RejectsNegative | src/corpus_replicator/test_common.py:398 | `-1x19` is not a resolution |
| Resolution.AcceptsBlanksAndSign | src/corpus_replicator/common.py:223-224 | ` 1X+2 ` is a resolution: the text is lowercased, and `int()` strips blanks and takes the sign |
| Resolution.AcceptsDigitGroups | src/corpus_replicator/common.py:223-224 | `1_0x5` is a resolution, because `int()` accepts digit grouping |
| Generators.Completed | src/corpus_replicator/tools/ffmpeg.py:41-42 | every call before the stopping point succeeded, and the call at that point, if there is one, failed |
| Generators.CorpusGenerator.constructor | src/corpus_replicator/common.py:155-158 | a generator is bound to its recipe and destination and starts with no templates |
| Generators.CorpusGenerator.AddTemplate | src/corpus_replicator/common.py:160-169 | the template is appended after those already added |
| Generators.CorpusGenerator.Description | src/corpus_replicator/common.py:175-192 | for a valid recipe, the description splits on `/` back into medium, library, codec and container |
| Generators.CorpusGenerator.Generate | src/corpus_replicator/tools/ffmpeg.py:27-42 | the paths handed out are those of the calls that succeeded before the first failure, in template-major then recipe order; the failing call's argv is reported; the log holds every issued argv (the ImageMagick generator, tools/imagemagick.py:27-42, differs only in the command prefix) |
| Generators.BaseCommand | src/corpus_replicator/tools/ffmpeg.py:28 | definition of the command prefix: `ffmpeg -i <template> -y`, or `convert <template>` (tools/imagemagick.py:28); see JobShape |
| Generators.OutputName | src/corpus_replicator/tools/ffmpeg.py:31-40 | definition of the output name `medium-codec-library-template-group-NN.container`, the same in tools/imagemagick.py:31-40; see OutputNameInjective, NamesDistinct and SampleOutputNames |
| Generators.Jobs | src/corpus_replicator/tools/ffmpeg.py:27-40 | definition of the calls `generate` makes, template by template; see Generate, JobsCount, JobsOrder and JobShape |
| Generators.JobsCount | src/corpus_replicator/tools/ffmpeg.py:27-29 | there are `len(templates) * len(recipe)` calls |
| Generators.JobsOrder | src/corpus_replicator/tools/imagemagick.py:27-29 | call `i * len(recipe) + k` is template `i` with the recipe's item `k` |
| Generators.JobShape | src/corpus_replicator/tools/ffmpeg.py:28-41 | every call writes under the destination, starts with the tool's binary (`ffmpeg` or `convert`) and ends with its output path |
| Generators.OutputNameInjective | src/corpus_replicator/tools/ffmpeg.py:31-40 | for one recipe and template, equal output names mean equal group and index |
| Generators.NamesDistinct | src/corpus_replicator/tools/imagemagick.py:31-40 | for one template and a recipe with distinct group names, no two calls write the same path |
| Generators.PadZero | src/corpus_replicator/tools/ffmpeg.py:38 | index 0 is written `00` |
| Dispatch.LoadGenerator | src/corpus_replicator/generate_corpus.py:16-38 | returns a fresh generator of the selected kind, bound to the recipe and destination and holding no templates, or the dispatch error |
| Dispatch.SelectTool | src/corpus_replicator/generate_corpus.py:26-36 | definition of the tool dispatch in `load_generator`; see SelectToolSpec |
| Dispatch.ToolMessage | src/corpus_replicator/generate_corpus.py:28-36 | definition of the `ToolError` texts; see ToolMessages |
| Dispatch.SelectToolSpec | src/corpus_replicator/generate_corpus.py:26-36 | dispatch succeeds exactly for `ffmpeg` or `imagemagick` when that tool is available; the kind follows the name; any other name is reported unsupported, and only known names are reported unavailable |
| Dispatch.ValidToolDispatches | src/corpus_replicator/common.py:108-109 | a validated recipe is never reported as an unsupported tool, and dispatch succeeds when both tools are available |
| Dispatch.ToolMessages | src/corpus_replicator/generate_corpus.py:28-36 | the three error messages are `FFmpeg is not available`, `ImageMagick is not available` and `Unsupported tool 'unknown'` |
| Dedup.Deduped | src/corpus_replicator/core.py:124-141 | definition of the directory `remove_duplicates` leaves; see RemoveDuplicates, DedupedDistinct, DedupedSurvivor and DedupedCount |
| Dedup.DedupedSubset | src/corpus_replicator/core.py:137-140 | removal only deletes: every survivor is an original file with unchanged contents |
| Dedup.DedupedDistinct | src/corpus_replicator/core.py:133-140 | no two remaining files have the same contents |
| Dedup.DedupedSurvivor | src/corpus_replicator/core.py:134-140 | every file's contents survive in the file of its group whose name sorts first; a file with unique contents is never removed |
| Dedup.DedupedIdempotent | src/corpus_replicator/core.py:124-141 | removing duplicates again removes nothing |
| Dedup.DedupedCount | src/corpus_replicator/core.py:133-141 | exactly one file survives per distinct contents |
| Dedup.DedupNothing | src/corpus_replicator/test_replicator.py:71 | an empty directory stays empty |
| Dedup.DedupThreeSame | src/corpus_replicator/test_replicator.py:73 | three identical files leave one |
| Dedup.DedupTwoPairs | src/corpus_replicator/test_replicator.py:76 | two pairs of identical files leave two |
| Replication.NewReplicator | src/corpus_replicator/core.py:40-56 | the first load error is raised; otherwise the replicator holds the recipes of its medium in load order and no templates |
| Replication.Replicator.constructor | src/corpus_replicator/core.py:40-45 | a replicator starts with no recipes and no templates |
| Replication.Kept | src/corpus_replicator/core.py:48-56 | definition of the recipes construction keeps, or the first load error; see KeptOk, KeptSound, KeptComplete and KeptFirstError |
| Replication.KeptOk | src/corpus_replicator/core.py:48-56 | construction succeeds exactly when every document loads |
| Replication.KeptSound | src/corpus_replicator/core.py:50-51 | every kept recipe has the replicator's medium and is one of the loaded recipes |
| Replication.KeptComplete | src/corpus_replicator/core.py:50-56 | every loaded recipe of the medium is kept; a recipe of another medium is only skipped, never an error |
| Replication.KeptFirstError | src/corpus_replicator/core.py:48-49 | a failed construction reports the error of the first document that fails to load, all earlier ones having loaded |
| Replication.KeptRecipesValid | src/corpus_replicator/core.py:48-56 | every kept recipe is valid and of the medium |
| Replication.Replicator.Len | src/corpus_replicator/core.py:58-59 | definition of `len(replicator)`, the sum of the recipes' lengths times the number of templates; see PairCountPairs and CorpusCount |
| Replication.PairCountPairs | src/corpus_replicator/core.py:58-59 | the items over all (recipe, template) pairs add up to `len(replicator)`, the sum of recipe lengths times the number of templates |
| Replication.Synthesize | src/corpus_replicator/core.py:106-119 | definition of calling the template maker on each name in turn until one fails; see SynthesizeSpec and GenerateTemplates |
| Replication.SynthesizeSpec | src/corpus_replicator/core.py:106-119 | the maker is called on the names in turn until one fails: the templates made are those of the names before the failure, one per name, and a failure means the maker failed on the next name |
| Replication.Replicator.GenerateTemplates | src/corpus_replicator/core.py:101-119 | the medium's template maker is called once per distinct requested name; the templates it makes are appended until a call fails, which ends the loop with the earlier ones kept and is reported; without a failure every distinct name has its template; the recipes are unchanged |
| Replication.TemplatesAdded | src/corpus_replicator/core.py:101-119 | never more templates are added than there are distinct names, nor than names requested; without a failing maker call exactly one per distinct name, and one per name when none repeats |
| Replication.PairsCount | src/corpus_replicator/core.py:70 | `product(recipes, templates)` has `len(recipes) * len(templates)` pairs |
| Replication.PairsAt | src/corpus_replicator/core.py:70 | pair `i * len(templates) + j` is recipe `i` with template `j`: recipe-major, template-minor |
| Replication.PairsMember | src/corpus_replicator/core.py:70 | every pair is made of a kept recipe and a template |
| Replication.RunPair | src/corpus_replicator/core.py:71-81 | one pair's run loads a generator for the recipe, adds only that template and drains it, or fails with the dispatch error |
| Replication.RunPairs | src/corpus_replicator/core.py:70-81 | the pairs are run in order, each drained before the next; the paths and calls of every pair before the first failing one are kept, and that pair's error ends the run |
| Replication.PairOutcome | src/corpus_replicator/core.py:71-81 | definition of one (recipe, template) pair's run: the dispatch error, or the drained generator's paths, log and failure; see PairOutcomeSpec and RunPair |
| Replication.PairOutcomeSpec | src/corpus_replicator/core.py:71-81 | one pair finishes without error exactly when its tool is available and every call succeeds, and then hands out `len(recipe)` paths; a dispatch failure carries the tool error |
| Replication.Replicator.GenerateCorpus | src/corpus_replicator/core.py:61-81 | the paths, log and error are those of running the pairs in order until the first pair that stops |
| Replication.DrainSpec | src/corpus_replicator/core.py:70-81 | the run finishes without error exactly when every pair does; otherwise the error is that of the first failing pair; without error, every pair's paths are handed out |
| Replication.CorpusCount | src/corpus_replicator/core.py:58-81 | a run without error hands out exactly `len(replicator)` paths |
| Replication.CorpusToolFailures | src/corpus_replicator/core.py:70-72 | with validated recipes, a dispatch failure is always an unavailable tool, never an unsupported one |
| Replication.Replicator.RemoveDuplicates | src/corpus_replicator/core.py:124-141 | the directory afterwards is exactly the original with, of each group of identical files, only the one whose name sorts first kept |
| Replication.Replicator.DropCopiesOf | src/corpus_replicator/core.py:134-140 | unless the current file was already removed, every other remaining file with its contents is removed, and only those |
| Replication.Replicator.RemoveTemplates | src/corpus_replicator/core.py:143-153 | the directory afterwards is the original without the files of the templates; missing files are ignored |
| Replication.Unlinked | src/corpus_replicator/core.py:143-153 | definition of the directory after every template file is unlinked, missing ones ignored; see UnlinkedSpec and RemoveTemplates |
| Replication.UnlinkedSpec | src/corpus_replicator/core.py:152-153 | survivors are untouched, no template file remains, other files stay, and unlinking again changes nothing |
| Scenarios.SampleLoads | src/corpus_replicator/test_common.py:19-49 | the sample audio recipe loads, with its default group and its `vbr` and `cbr` variation groups |
| Scenarios.SampleExpansion | src/corpus_replicator/test_common.py:53-64 | the sample yields three `vbr` items and one `cbr` item; each carries the encoder flags and its own flag-set |
| VideoScenario.VideoLoads | src/corpus_replicator/tools/test_ffmpeg.py:9-24 | the video recipe loads, with its `param` default group and its `param` variation group of two flag-sets |
| VideoScenario.VideoItems | src/corpus_replicator/tools/test_ffmpeg.py:9-24 | the `param` variation overrides the `param` default group: the two items carry only `flags-1` and `flags-2` |
| VideoScenario.SampleOutputNames | src/corpus_replicator/tools/test_ffmpeg.py:36-55 | loading the video recipe and generating with two templates and a tool that always succeeds hands out four files, template by template, named `video-h264-libx264-template0N-param-0K.mp4` |
| Scenarios.SampleLen | src/corpus_replicator/test_common.py:51-64 | the sample's length is 4, and every item has four flags |

## Left out

- YAML parsing is not modelled. A document is a parsed value, or `Unparsable`
  for a file that fails to parse or decode.
- Recipes.Load and the lemmas about it require `Shaped(doc)`. A `Shaped`
  document has:
  - a top level and a `base` that are mappings;
  - a truthy `variation` that is a mapping;
  - truthy default-flag groups that can be iterated (a list, string or
    mapping).

  Python raises nothing but `RecipeError` on every `Shaped` document. On a
  document that is not `Shaped`, the constructor often raises `TypeError`
  or `AttributeError`, and those crashes are not modelled. Some documents
  that are not `Shaped` still raise a `RecipeError` first, for example a
  bad `codec` together with `variation: 5`, since the `base` loop runs
  before `.items()` is called on the variations. The model does not cover
  those documents either.
- Distinct keys in every mapping are a property of the parsed value, not a
  check. PyYAML's `safe_load` keeps the last value of a repeated key, so the
  dictionary the constructor sees never repeats one.
- Mapping keys are strings in the model: a YAML key of another type, such
  as `1` or `true`, cannot be represented. Two behaviours are lost with it:
  a non-string variation name makes `re.match` raise `TypeError`
  (common.py:89), and a mapping default-flag group with a non-string key
  raises the `has invalid flags` `RecipeError` (common.py:76-79).
- Replication.NewReplicator requires every document to be `Shaped`, for the
  same reason. This also excludes lists in which a document after the first
  one that fails to load is not `Shaped`, although Python raises on the
  failing document (core.py:48-49) and never reads the later ones.
- `run_tool` is an oracle `run` from argv to success. It stands in for the
  subprocess, its 600-second timeout and its log file.
- Files the external tools write are not added to `Directory`.
- `ffmpeg_available`, `imagemagick_available` and `list_recipes` depend on
  the environment and become inputs: two booleans, and the list of documents.
- generate_template.py is not part of this model: the FFmpeg and ImageMagick
  templates, with duration, frames and resolution. A template maker is an
  input function from (medium kind, name) to an optional `Template`. `None`
  stands for any exception the maker raises: a failed `run_tool`, or its
  assertion that the name is a known template.
- `init_logging`, all logging, `parse_args` and `main` are left out. They are
  CLI and I/O.
- Replication.Replicator.GenerateTemplates: a failing maker call is reported
  as `failed`, not as the exception it raises, and how that exception reaches
  `main` is not modelled. The templates appended before it stay, as in Python.
  The new templates come in some
  order of the distinct names, the ghost `order`. Python's `set` iteration
  order is not modelled. Likewise, the recipe documents given to the
  constructor are those of the distinct paths in `set(recipes)`, in the
  set's iteration order. Dropping repeated paths is left to the caller.
- Generators.CorpusGenerator.Description: the split-back property is stated
  only for valid recipes. For other recipes a part may itself contain `/`.
- `remove_duplicates` compares names, not files. `samefile`, hard links,
  symbolic links and `filecmp`'s caching are not modelled, and every name in
  the map is a distinct file.
- Paths are `dest + "/" + name`, with no `pathlib` normalisation. A `dest`
  of `.` or one ending in `/` gives argv strings that differ from Python's
  `str(dest / name)`, which would be `name` and a single `/` respectively.
- `remove_templates` removes a template's file only when it lies directly in
  the output directory. Deleting files elsewhere on the filesystem is not
  modelled.
- Generators are drained eagerly. Python's lazy `yield` is modelled as the
  list of paths handed out before the first failure.
- `str.lower()` and `int()` are modelled for ASCII letters and digits and
  the blanks `int()` skips. Unicode case mapping and non-ASCII digits are
  left out.
- The `repr` quoting in `Unsupported tool ...` is modelled as single quotes,
  as for a name without quote characters.
- The `assert`s in `Template.__init__` are not modelled: names and files are
  plain strings.
- `FFmpegGenerator` and `ImageMagickGenerator` are one class with a `kind`
  field, since they differ only in the command prefix.
