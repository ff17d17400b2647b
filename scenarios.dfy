/** Concrete recipes and their expected behaviour, from the project's test cases. */
module Scenarios {
  import opened Wrappers
  import opened Document
  import opened Text
  import opened Recipes

  function BaseEntries(defaults: Value): seq<(string, Value)> {
    [("codec", Str("codec")), ("container", Str("container")), ("library", Str("library")),
     ("medium", Str("audio")), ("tool", Str("ffmpeg")), ("default_flags", defaults)]
  }

  const ENCODER: Value := List([Str("-c:a"), Str("mp3")])
  const VBR: Value := List([List([Str("-vbr"), Str("1")]), List([Str("-vbr"), Str("3")]), List([Str("-vbr"), Str("5")])])
  const CBR: Value := List([List([Str("-b:a"), Str("64k")])])
  const SAMPLE_BASE: seq<(string, Value)> := BaseEntries(Map([("encoder", ENCODER)]))
  const SAMPLE_VARIATIONS: seq<(string, Value)> := [("vbr", VBR), ("cbr", CBR)]

  /** The audio recipe of the end-to-end scenario: one default group, `vbr` and `cbr` variations. */
  const SAMPLE: Document := Parsed(Map([("base", Map(SAMPLE_BASE)), ("variation", Map(SAMPLE_VARIATIONS))]))

  const SAMPLE_RECIPE: Recipe := Recipe(
    [("encoder", ["-c:a", "mp3"])],
    [("vbr", [["-vbr", "1"], ["-vbr", "3"], ["-vbr", "5"]]), ("cbr", [["-b:a", "64k"]])],
    "codec", "container", "library", "audio", "ffmpeg")

  lemma SafeWords()
    ensures SafeName("codec") && SafeName("container") && SafeName("library")
    ensures SafeName("audio") && SafeName("ffmpeg") && SafeName("vbr") && SafeName("cbr")
  {
  }

  lemma SampleBaseKeys()
    ensures DistinctKeys(SAMPLE_BASE)
    ensures Get(SAMPLE_BASE, "medium") == Str("audio") && Get(SAMPLE_BASE, "tool") == Str("ffmpeg")
    ensures Lookup(SAMPLE_BASE, "default_flags") == Some(Map([("encoder", ENCODER)]))
    ensures Get(SAMPLE_BASE, "codec") == Str("codec") && Get(SAMPLE_BASE, "container") == Str("container")
    ensures Get(SAMPLE_BASE, "library") == Str("library")
  {
    var es := SAMPLE_BASE;
    forall i, j | 0 <= i < j < |es| ensures es[i].0 != es[j].0 {
      assert |es[0].0| == 5 && |es[1].0| == 9 && |es[2].0| == 7;
      assert |es[3].0| == 6 && |es[4].0| == 4 && |es[5].0| == 13;
    }
    GetAt(es, 0);
    GetAt(es, 1);
    GetAt(es, 2);
    GetAt(es, 3);
    GetAt(es, 4);
    GetAt(es, 5);
  }

  lemma SampleShaped()
    ensures Shaped(SAMPLE)
    ensures Root(SAMPLE).entries == [("base", Map(SAMPLE_BASE)), ("variation", Map(SAMPLE_VARIATIONS))]
  {
    SampleBaseKeys();
    var data := Root(SAMPLE).entries;
    assert Lookup(data, "base") == Some(Map(SAMPLE_BASE));
    assert Lookup(data, "variation") == Some(Map(SAMPLE_VARIATIONS));
  }

  lemma SampleLookups()
    ensures FirstMissing(Root(SAMPLE).entries).None?
    ensures Get(Root(SAMPLE).entries, "base") == Map(SAMPLE_BASE)
    ensures VariationEntries(Root(SAMPLE).entries) == SAMPLE_VARIATIONS
  {
    SampleShaped();
    SampleBaseKeys();
    var data := Root(SAMPLE).entries;
    assert Lookup(data, "base") == Some(Map(SAMPLE_BASE));
    assert Lookup(data, "variation") == Some(Map(SAMPLE_VARIATIONS));
  }

  lemma SampleBaseChecks()
    ensures FirstError(SAMPLE_BASE, BaseEntryError).None?
  {
    SafeWords();
    var groups := [("encoder", ENCODER)];
    FirstErrorSpec(groups, DefaultGroupError);
    assert DefaultGroupError(groups[0]).None?;
    FirstErrorSpec(SAMPLE_BASE, BaseEntryError);
    forall i | 0 <= i < |SAMPLE_BASE| ensures BaseEntryError(SAMPLE_BASE[i]).None? {
      assert i == 0 || i == 1 || i == 2 || i == 3 || i == 4 || i == 5;
    }
  }

  /** Every flag-set of `group` is a non-empty list of strings. */
  lemma FlagSetsPass(name: string, group: Value)
    requires group.List?
    requires forall i :: 0 <= i < |group.items| ==> Truthy(group.items[i]) && group.items[i].List?
    requires forall i, j :: 0 <= i < |group.items| && 0 <= j < |group.items[i].items| ==> group.items[i].items[j].Str?
    ensures FirstError(group.items, FlagSetCheck(name)).None?
  {
    FirstErrorSpec(group.items, FlagSetCheck(name));
  }

  lemma SampleVariationChecks()
    ensures FirstError(SAMPLE_VARIATIONS, VariationError).None?
  {
    SafeWords();
    FlagSetsPass("vbr", VBR);
    FlagSetsPass("cbr", CBR);
    FirstErrorSpec(SAMPLE_VARIATIONS, VariationError);
    assert VariationError(SAMPLE_VARIATIONS[0]).None?;
    assert VariationError(SAMPLE_VARIATIONS[1]).None?;
  }

  lemma SampleGroups()
    ensures DefaultGroups(EntriesOf(Get(SAMPLE_BASE, "default_flags"))) == SAMPLE_RECIPE.flags
    ensures VariationGroups(SAMPLE_VARIATIONS) == SAMPLE_RECIPE.variations
  {
    SampleBaseKeys();
    var enc := GroupTokens(ENCODER);
    assert |enc| == 2 && enc[0] == "-c:a" && enc[1] == "mp3";
    assert enc == ["-c:a", "mp3"];
    var d := DefaultGroups(EntriesOf(Get(SAMPLE_BASE, "default_flags")));
    assert |d| == 1 && d[0] == ("encoder", enc);
    assert d == [("encoder", ["-c:a", "mp3"])];
    var v := FlagSets(VBR);
    assert GroupTokens(VBR.items[0]) == ["-vbr", "1"] by {
      var t := GroupTokens(VBR.items[0]);
      assert |t| == 2 && t[0] == "-vbr" && t[1] == "1";
    }
    assert GroupTokens(VBR.items[1]) == ["-vbr", "3"] by {
      var t := GroupTokens(VBR.items[1]);
      assert |t| == 2 && t[0] == "-vbr" && t[1] == "3";
    }
    assert GroupTokens(VBR.items[2]) == ["-vbr", "5"] by {
      var t := GroupTokens(VBR.items[2]);
      assert |t| == 2 && t[0] == "-vbr" && t[1] == "5";
    }
    assert GroupTokens(CBR.items[0]) == ["-b:a", "64k"] by {
      var t := GroupTokens(CBR.items[0]);
      assert |t| == 2 && t[0] == "-b:a" && t[1] == "64k";
    }
    assert |v| == 3 && v[0] == ["-vbr", "1"] && v[1] == ["-vbr", "3"] && v[2] == ["-vbr", "5"];
    var c := FlagSets(CBR);
    assert |c| == 1 && c[0] == ["-b:a", "64k"];
    var g := VariationGroups(SAMPLE_VARIATIONS);
    assert v == [["-vbr", "1"], ["-vbr", "3"], ["-vbr", "5"]];
    assert c == [["-b:a", "64k"]];
    assert |g| == 2 && g[0] == ("vbr", v) && g[1] == ("cbr", c);
    assert g == [("vbr", v), ("cbr", c)];
  }

  /** The sample document is accepted and yields the expected recipe. */
  lemma SampleLoads()
    ensures Shaped(SAMPLE) && Load(SAMPLE) == Ok(SAMPLE_RECIPE)
  {
    SampleShaped();
    SampleLookups();
    SampleBaseChecks();
    SampleVariationChecks();
    SampleGroups();
    SampleBaseKeys();
    assert SUPPORTED_MEDIUM[1] == "audio" && SUPPORTED_TOOLS[0] == "ffmpeg";
  }

  const ENCODER_FLAGS: seq<string> := ["-c:a", "mp3"]
  const VBR_ITEMS: seq<Item> := [
    Item("vbr", 0, ["-c:a", "mp3", "-vbr", "1"]),
    Item("vbr", 1, ["-c:a", "mp3", "-vbr", "3"]),
    Item("vbr", 2, ["-c:a", "mp3", "-vbr", "5"])]
  const CBR_ITEMS: seq<Item> := [Item("cbr", 0, ["-c:a", "mp3", "-b:a", "64k"])]

  /** Both variation groups start from the one default group's tokens. */
  lemma SampleBaseFlags()
    ensures BaseFlags(SAMPLE_RECIPE.flags, "vbr") == ENCODER_FLAGS
    ensures BaseFlags(SAMPLE_RECIPE.flags, "cbr") == ENCODER_FLAGS
  {
    assert SAMPLE_RECIPE.flags[..0] == [];
  }

  lemma VbrItems()
    ensures GroupItems("vbr", SAMPLE_RECIPE.variations[0].1, ENCODER_FLAGS) == VBR_ITEMS
  {
    var g := GroupItems("vbr", SAMPLE_RECIPE.variations[0].1, ENCODER_FLAGS);
    assert ENCODER_FLAGS + ["-vbr", "1"] == ["-c:a", "mp3", "-vbr", "1"];
    assert ENCODER_FLAGS + ["-vbr", "3"] == ["-c:a", "mp3", "-vbr", "3"];
    assert ENCODER_FLAGS + ["-vbr", "5"] == ["-c:a", "mp3", "-vbr", "5"];
    assert |g| == 3 && g[0] == VBR_ITEMS[0] && g[1] == VBR_ITEMS[1] && g[2] == VBR_ITEMS[2];
  }

  lemma CbrItems()
    ensures GroupItems("cbr", SAMPLE_RECIPE.variations[1].1, ENCODER_FLAGS) == CBR_ITEMS
  {
    var g := GroupItems("cbr", SAMPLE_RECIPE.variations[1].1, ENCODER_FLAGS);
    assert ENCODER_FLAGS + ["-b:a", "64k"] == ["-c:a", "mp3", "-b:a", "64k"];
    assert |g| == 1 && g[0] == CBR_ITEMS[0];
  }

  /**
   * Four items: the `vbr` ones carry the encoder flags and their own
   * `-vbr` tokens, the `cbr` one the encoder flags and `-b:a 64k`.
   */
  lemma SampleExpansion()
    ensures Items(SAMPLE_RECIPE) == VBR_ITEMS + CBR_ITEMS
  {
    var d, vs := SAMPLE_RECIPE.flags, SAMPLE_RECIPE.variations;
    SampleBaseFlags();
    VbrItems();
    CbrItems();
    assert vs[..1][..0] == [];
    assert Expand(d, vs[..1]) == VBR_ITEMS;
  }

  /** The sample recipe has four flag-sets, each of four tokens. */
  lemma SampleLen()
    ensures Len(SAMPLE_RECIPE) == 4
    ensures forall k :: 0 <= k < |Items(SAMPLE_RECIPE)| ==> |Items(SAMPLE_RECIPE)[k].flags| == 4
  {
    SampleExpansion();
  }
}
