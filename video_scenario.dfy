/**
 * The FFmpeg generator's end-to-end case: a video recipe whose one variation
 * group overrides the default group of the same name, crossed with two
 * templates.
 */
module VideoScenario {
  import opened Wrappers
  import opened Document
  import opened Text
  import opened Recipes
  import opened Generators

  const PARAM_DEFAULT: Value := List([Str("overwrite-me")])
  const PARAM_SETS: Value := List([List([Str("flags-1")]), List([Str("flags-2")])])
  const VIDEO_BASE: seq<(string, Value)> :=
    [("codec", Str("h264")), ("container", Str("mp4")), ("library", Str("libx264")),
     ("medium", Str("video")), ("tool", Str("ffmpeg")), ("default_flags", Map([("param", PARAM_DEFAULT)]))]
  const VIDEO_VARIATIONS: seq<(string, Value)> := [("param", PARAM_SETS)]

  /** The video recipe: a `param` default group and a `param` variation group with two flag-sets. */
  const VIDEO: Document := Parsed(Map([("base", Map(VIDEO_BASE)), ("variation", Map(VIDEO_VARIATIONS))]))

  const VIDEO_RECIPE: Recipe := Recipe(
    [("param", ["overwrite-me"])],
    [("param", [["flags-1"], ["flags-2"]])],
    "h264", "mp4", "libx264", "video", "ffmpeg")

  const TEMPLATE_1: Template := Template("template01", "template.bin")
  const TEMPLATE_2: Template := Template("template02", "template.bin")

  lemma SafeWords()
    ensures SafeName("h264") && SafeName("mp4") && SafeName("libx264")
    ensures SafeName("video") && SafeName("ffmpeg") && SafeName("param")
  {
  }

  lemma VideoBaseKeys()
    ensures DistinctKeys(VIDEO_BASE)
    ensures Get(VIDEO_BASE, "medium") == Str("video") && Get(VIDEO_BASE, "tool") == Str("ffmpeg")
    ensures Lookup(VIDEO_BASE, "default_flags") == Some(Map([("param", PARAM_DEFAULT)]))
    ensures Get(VIDEO_BASE, "codec") == Str("h264") && Get(VIDEO_BASE, "container") == Str("mp4")
    ensures Get(VIDEO_BASE, "library") == Str("libx264")
  {
    var es := VIDEO_BASE;
    forall i, j | 0 <= i < j < |es| ensures es[i].0 != es[j].0 {
      assert |es[0].0| == 5 && |es[1].0| == 9 && |es[2].0| == 7;
      assert |es[3].0| == 6 && |es[4].0| == 4 && |es[5].0| == 13;
    }
    GetAt(es, 0);
    GetAt(es, 1);
    GetAt(es, 2);
    GetAt(es, 3);
    GetAt(es, 4);
    GetAt(es, 5);
  }

  lemma VideoLookups()
    ensures Shaped(VIDEO)
    ensures FirstMissing(Root(VIDEO).entries).None?
    ensures Get(Root(VIDEO).entries, "base") == Map(VIDEO_BASE)
    ensures VariationEntries(Root(VIDEO).entries) == VIDEO_VARIATIONS
  {
    VideoBaseKeys();
    var data := Root(VIDEO).entries;
    assert Lookup(data, "base") == Some(Map(VIDEO_BASE));
    assert Lookup(data, "variation") == Some(Map(VIDEO_VARIATIONS));
  }

  lemma VideoChecks()
    ensures FirstError(VIDEO_BASE, BaseEntryError).None?
    ensures FirstError(VIDEO_VARIATIONS, VariationError).None?
  {
    SafeWords();
    var groups := [("param", PARAM_DEFAULT)];
    FirstErrorSpec(groups, DefaultGroupError);
    assert DefaultGroupError(groups[0]).None?;
    FirstErrorSpec(VIDEO_BASE, BaseEntryError);
    forall i | 0 <= i < |VIDEO_BASE| ensures BaseEntryError(VIDEO_BASE[i]).None? {
      assert i == 0 || i == 1 || i == 2 || i == 3 || i == 4 || i == 5;
    }
    FirstErrorSpec(PARAM_SETS.items, FlagSetCheck("param"));
    FirstErrorSpec(VIDEO_VARIATIONS, VariationError);
    assert VariationError(VIDEO_VARIATIONS[0]).None?;
  }

  lemma VideoGroups()
    ensures DefaultGroups(EntriesOf(Get(VIDEO_BASE, "default_flags"))) == VIDEO_RECIPE.flags
    ensures VariationGroups(VIDEO_VARIATIONS) == VIDEO_RECIPE.variations
  {
    VideoBaseKeys();
    assert GroupTokens(PARAM_DEFAULT) == ["overwrite-me"] by {
      var t := GroupTokens(PARAM_DEFAULT);
      assert |t| == 1 && t[0] == "overwrite-me";
    }
    var d := DefaultGroups(EntriesOf(Get(VIDEO_BASE, "default_flags")));
    assert |d| == 1 && d[0] == ("param", ["overwrite-me"]);
    assert d == [("param", ["overwrite-me"])];
    assert GroupTokens(PARAM_SETS.items[0]) == ["flags-1"] by {
      var t := GroupTokens(PARAM_SETS.items[0]);
      assert |t| == 1 && t[0] == "flags-1";
    }
    assert GroupTokens(PARAM_SETS.items[1]) == ["flags-2"] by {
      var t := GroupTokens(PARAM_SETS.items[1]);
      assert |t| == 1 && t[0] == "flags-2";
    }
    var v := FlagSets(PARAM_SETS);
    assert |v| == 2 && v[0] == ["flags-1"] && v[1] == ["flags-2"];
    var g := VariationGroups(VIDEO_VARIATIONS);
    assert v == [["flags-1"], ["flags-2"]];
    assert |g| == 1 && g[0] == ("param", v);
    assert g == [("param", v)];
  }

  /** The video document is accepted and yields the expected recipe. */
  lemma VideoLoads()
    ensures Shaped(VIDEO) && Load(VIDEO) == Ok(VIDEO_RECIPE)
  {
    VideoLookups();
    VideoChecks();
    VideoGroups();
    VideoBaseKeys();
    assert SUPPORTED_MEDIUM[3] == "video" && SUPPORTED_TOOLS[0] == "ffmpeg";
  }

  const VIDEO_ITEMS: seq<Item> := [Item("param", 0, ["flags-1"]), Item("param", 1, ["flags-2"])]

  /** The `param` variation overrides the `param` default group: its `overwrite-me` token is dropped. */
  lemma VideoItems()
    ensures Items(VIDEO_RECIPE) == VIDEO_ITEMS
  {
    var d, vs := VIDEO_RECIPE.flags, VIDEO_RECIPE.variations;
    assert d[..0] == [] && vs[..0] == [];
    assert BaseFlags(d, "param") == [];
    var g := GroupItems("param", vs[0].1, []);
    assert |g| == 2 && g[0] == VIDEO_ITEMS[0] && g[1] == VIDEO_ITEMS[1];
  }

  lemma Pad2Small()
    ensures Pad2(0) == "00" && Pad2(1) == "01"
  {
    assert ShowNat(0) == "0" && ShowNat(1) == "1";
  }

  /** `video-h264-libx264-<template>-param-<nn>.mp4`. */
  lemma NameOf(t: Template, it: Item, nn: string)
    requires it.group == "param" && Pad2(it.index) == nn
    ensures OutputName(VIDEO_RECIPE, t, it) == "video-h264-libx264-" + t.name + "-param-" + nn + ".mp4"
  {
    JoinSix("video", "h264", "libx264", t.name, "param", nn + "." + "mp4");
    assert "video" + "-" + "h264" + "-" + "libx264" + "-" == "video-h264-libx264-";
  }

  /** The four expected names, spelled out piece by piece. */
  lemma Spelled1()
    ensures "video-h264-libx264-" + "template01" + "-param-" + "00" + ".mp4" == "video-h264-libx264-template01-param-00.mp4"
  {
    assert "video-h264-libx264-" + "template01" == "video-h264-libx264-template01";
    assert "video-h264-libx264-template01" + "-param-" == "video-h264-libx264-template01-param-";
    assert "video-h264-libx264-template01-param-" + "00" == "video-h264-libx264-template01-param-00";
  }

  lemma Spelled2()
    ensures "video-h264-libx264-" + "template01" + "-param-" + "01" + ".mp4" == "video-h264-libx264-template01-param-01.mp4"
  {
    assert "video-h264-libx264-" + "template01" == "video-h264-libx264-template01";
    assert "video-h264-libx264-template01" + "-param-" == "video-h264-libx264-template01-param-";
    assert "video-h264-libx264-template01-param-" + "01" == "video-h264-libx264-template01-param-01";
  }

  lemma Spelled3()
    ensures "video-h264-libx264-" + "template02" + "-param-" + "00" + ".mp4" == "video-h264-libx264-template02-param-00.mp4"
  {
    assert "video-h264-libx264-" + "template02" == "video-h264-libx264-template02";
    assert "video-h264-libx264-template02" + "-param-" == "video-h264-libx264-template02-param-";
    assert "video-h264-libx264-template02-param-" + "00" == "video-h264-libx264-template02-param-00";
  }

  lemma Spelled4()
    ensures "video-h264-libx264-" + "template02" + "-param-" + "01" + ".mp4" == "video-h264-libx264-template02-param-01.mp4"
  {
    assert "video-h264-libx264-" + "template02" == "video-h264-libx264-template02";
    assert "video-h264-libx264-template02" + "-param-" == "video-h264-libx264-template02-param-";
    assert "video-h264-libx264-template02-param-" + "01" == "video-h264-libx264-template02-param-01";
  }

  /**
   * Loading the video recipe and generating with two templates and a tool
   * that always succeeds hands out four files, template by template, with
   * the expected names.
   */
  lemma SampleOutputNames(dest: string)
    ensures Shaped(VIDEO) && Load(VIDEO) == Ok(VIDEO_RECIPE)
    ensures var jobs := Jobs(FFmpeg, VIDEO_RECIPE, dest, [TEMPLATE_1, TEMPLATE_2]);
      Completed(jobs, _ => true) == |jobs| == 4
    ensures PathsOf(Jobs(FFmpeg, VIDEO_RECIPE, dest, [TEMPLATE_1, TEMPLATE_2])) ==
      [Path(dest, "video-h264-libx264-template01-param-00.mp4"),
       Path(dest, "video-h264-libx264-template01-param-01.mp4"),
       Path(dest, "video-h264-libx264-template02-param-00.mp4"),
       Path(dest, "video-h264-libx264-template02-param-01.mp4")]
  {
    VideoLoads();
    VideoItems();
    Pad2Small();
    NameOf(TEMPLATE_1, VIDEO_ITEMS[0], "00");
    NameOf(TEMPLATE_1, VIDEO_ITEMS[1], "01");
    NameOf(TEMPLATE_2, VIDEO_ITEMS[0], "00");
    NameOf(TEMPLATE_2, VIDEO_ITEMS[1], "01");
    Spelled1();
    Spelled2();
    Spelled3();
    Spelled4();
    var ts := [TEMPLATE_1, TEMPLATE_2];
    assert ts[..1] == [TEMPLATE_1] && [TEMPLATE_1][..0] == [];
    assert Jobs(FFmpeg, VIDEO_RECIPE, dest, [TEMPLATE_1]) == TemplateJobs(FFmpeg, VIDEO_RECIPE, dest, TEMPLATE_1);
    var jobs := Jobs(FFmpeg, VIDEO_RECIPE, dest, ts);
    assert jobs == TemplateJobs(FFmpeg, VIDEO_RECIPE, dest, TEMPLATE_1) + TemplateJobs(FFmpeg, VIDEO_RECIPE, dest, TEMPLATE_2);
    AllCompleted(jobs, _ => true);
  }
}
