/**
 * The objectId registries of the two duplicable template slides and the rename map used
 * when a slide is duplicated (execution/slides_report.py, `_competitor_element_ids`,
 * `_idea_element_ids`, `_build_object_ids_map`, `_map_id`).
 *
 * Every id is a slide prefix followed by a name. A name is either one underscore-free
 * word or `group_part` with an underscore-free group; the group of a name therefore
 * tells the blocks of the registry apart, and the part tells the entries of one group
 * apart. That is how the registries are shown to be free of repeats.
 */
module SlidesRegistry {
  import opened Wrappers
  import opened Decimal

  /** No entry occurs twice. */
  predicate Distinct(s: seq<string>) {
    forall i, j :: 0 <= i < j < |s| ==> s[i] != s[j]
  }

  predicate NoUnderscore(s: string) {
    forall i :: 0 <= i < |s| ==> s[i] != '_'
  }

  /** The text of a name up to its first underscore. */
  function Group(s: string): string
    decreases |s|
  {
    if s == [] || s[0] == '_' then [] else [s[0]] + Group(s[1..])
  }

  /** `f"{group}_{part}"` */
  function Name(group: string, part: string): string {
    group + "_" + part
  }

  /** The ids `prefix + name` for the given names, in order. */
  function Prefixed(prefix: string, names: seq<string>): (r: seq<string>)
    ensures |r| == |names|
  {
    seq(|names|, i requires 0 <= i < |names| => prefix + names[i])
  }

  /** `[f"{prefix}{group}_{part}" for part in parts]` */
  function Row(prefix: string, group: string, parts: seq<string>): (r: seq<string>)
    ensures |r| == |parts|
  {
    seq(|parts|, i requires 0 <= i < |parts| => prefix + Name(group, parts[i]))
  }

  /** One row per group, in order: what a loop over the groups extending the list with rows gives. */
  function Cross(prefix: string, groups: seq<string>, parts: seq<string>): (r: seq<string>)
    ensures |r| == |groups| * |parts|
  {
    if groups == [] then []
    else Cross(prefix, groups[..|groups| - 1], parts) + Row(prefix, groups[|groups| - 1], parts)
  }

  /** `[f"{tag}{i}" for i in range(1, n + 1)]` */
  function Numbered(tag: string, n: nat): (r: seq<string>)
    ensures |r| == n
  {
    seq(n, i requires 0 <= i < n => tag + Digits(i + 1))
  }

  // ---------------------------------------------------------------------------
  // Facts about names
  // ---------------------------------------------------------------------------

  lemma {:induction false} GroupOfName(group: string, part: string)
    requires NoUnderscore(group)
    ensures Group(Name(group, part)) == group
    ensures !NoUnderscore(Name(group, part))
    decreases |group|
  {
    assert Name(group, part)[|group|] == '_';
    if group != [] {
      assert Name(group, part)[1..] == Name(group[1..], part);
      GroupOfName(group[1..], part);
    }
  }

  /** Two names of the same group are equal only if their parts are. */
  lemma NamePartInjective(group: string, p: string, q: string)
    requires Name(group, p) == Name(group, q)
    ensures p == q
  {
    assert p == Name(group, p)[|group| + 1..];
    assert q == Name(group, q)[|group| + 1..];
  }

  lemma DistinctConcat(a: seq<string>, b: seq<string>)
    requires Distinct(a) && Distinct(b)
    requires forall x :: x in a ==> x !in b
    ensures Distinct(a + b)
  {
    forall i, j | 0 <= i < j < |a + b|
      ensures (a + b)[i] != (a + b)[j]
    {
      if j >= |a| && i < |a| {
        assert (a + b)[i] in a;
        assert (a + b)[j] == b[j - |a|];
      }
    }
  }

  /** Putting one prefix in front of distinct names keeps them apart. */
  lemma PrefixedDistinct(prefix: string, names: seq<string>)
    requires Distinct(names)
    ensures Distinct(Prefixed(prefix, names))
    ensures forall x :: x in Prefixed(prefix, names) ==> prefix <= x && x[|prefix|..] in names
  {
    forall i, j | 0 <= i < j < |names|
      ensures Prefixed(prefix, names)[i] != Prefixed(prefix, names)[j]
    {
      assert Prefixed(prefix, names)[i][|prefix|..] == names[i];
      assert Prefixed(prefix, names)[j][|prefix|..] == names[j];
    }
    forall x | x in Prefixed(prefix, names)
      ensures prefix <= x && x[|prefix|..] in names
    {
      var i :| 0 <= i < |names| && x == Prefixed(prefix, names)[i];
      assert x[|prefix|..] == names[i];
    }
  }

  /**
   * Every id of `ids` is `prefix` followed by either one of `words` (no underscore) or a
   * name with an underscore whose group is one of `groups`.
   */
  predicate Classified(prefix: string, ids: seq<string>, words: seq<string>, groups: seq<string>) {
    forall x :: x in ids ==>
      prefix <= x && ((NoUnderscore(x[|prefix|..]) && x[|prefix|..] in words)
       || (!NoUnderscore(x[|prefix|..]) && Group(x[|prefix|..]) in groups))
  }

  /**
   * A cross of distinct underscore-free groups with distinct parts has no repeats, and
   * every entry, read after the prefix, is a name with an underscore of one of the groups.
   */
  lemma {:induction false} CrossDistinct(prefix: string, groups: seq<string>, parts: seq<string>)
    requires Distinct(groups) && Distinct(parts)
    requires forall g :: g in groups ==> NoUnderscore(g)
    ensures Distinct(Cross(prefix, groups, parts))
    ensures Classified(prefix, Cross(prefix, groups, parts), [], groups)
    decreases |groups|
  {
    if groups != [] {
      var init, last := groups[..|groups| - 1], groups[|groups| - 1];
      assert forall g :: g in init ==> g in groups;
      assert Distinct(init) by {
        forall i, j | 0 <= i < j < |init| ensures init[i] != init[j] {
          assert init[i] == groups[i] && init[j] == groups[j];
        }
      }
      assert last !in init by {
        forall i | 0 <= i < |init| ensures init[i] != last {
          assert init[i] == groups[i];
        }
      }
      CrossDistinct(prefix, init, parts);
      var row := Row(prefix, last, parts);
      forall x | x in row
        ensures prefix <= x && !NoUnderscore(x[|prefix|..]) && Group(x[|prefix|..]) == last
      {
        var j :| 0 <= j < |parts| && x == row[j];
        assert x[|prefix|..] == Name(last, parts[j]);
        GroupOfName(last, parts[j]);
      }
      assert Distinct(row) by {
        forall i, j | 0 <= i < j < |row| ensures row[i] != row[j] {
          if row[i] == row[j] {
            assert row[i][|prefix|..] == Name(last, parts[i]);
            assert row[j][|prefix|..] == Name(last, parts[j]);
            NamePartInjective(last, parts[i], parts[j]);
          }
        }
      }
      DistinctConcat(Cross(prefix, init, parts), row);
    }
  }

  /** The numbered group names `tag1`, `tag2`, … are distinct and underscore-free when `tag` is. */
  lemma NumberedDistinct(tag: string, n: nat)
    requires NoUnderscore(tag)
    ensures Distinct(Numbered(tag, n))
    ensures forall g :: g in Numbered(tag, n) ==> NoUnderscore(g)
  {
    var r := Numbered(tag, n);
    forall i, j | 0 <= i < j < n ensures r[i] != r[j] {
      if r[i] == r[j] {
        assert r[i][|tag|..] == Digits(i + 1);
        assert r[j][|tag|..] == Digits(j + 1);
        DigitsInjective(i + 1, j + 1);
      }
    }
    forall g | g in r ensures NoUnderscore(g) {
      var i :| 0 <= i < n && g == r[i];
      var d := Digits(i + 1);
      assert forall k :: 0 <= k < |d| ==> IsDigit(d[k]);
      assert forall k :: |tag| <= k < |g| ==> g[k] == d[k - |tag|];
    }
  }

  /** Appending a block of fresh words to a registry without repeats keeps it without repeats. */
  lemma AddWords(prefix: string, ids: seq<string>, words: seq<string>, groups: seq<string>, block: seq<string>)
    requires Distinct(ids) && Classified(prefix, ids, words, groups)
    requires Distinct(block)
    requires forall w :: w in block ==> NoUnderscore(w) && w !in words
    ensures Distinct(ids + Prefixed(prefix, block))
    ensures Classified(prefix, ids + Prefixed(prefix, block), words + block, groups)
  {
    PrefixedDistinct(prefix, block);
    DistinctConcat(ids, Prefixed(prefix, block));
  }

  /** Appending a cross of fresh groups to a registry without repeats keeps it without repeats. */
  lemma AddCross(prefix: string, ids: seq<string>, words: seq<string>, groups: seq<string>,
                 blockGroups: seq<string>, parts: seq<string>)
    requires Distinct(ids) && Classified(prefix, ids, words, groups)
    requires Distinct(blockGroups) && Distinct(parts)
    requires forall g :: g in blockGroups ==> NoUnderscore(g) && g !in groups
    ensures Distinct(ids + Cross(prefix, blockGroups, parts))
    ensures Classified(prefix, ids + Cross(prefix, blockGroups, parts), words, groups + blockGroups)
  {
    CrossDistinct(prefix, blockGroups, parts);
    DistinctConcat(ids, Cross(prefix, blockGroups, parts));
  }

  // ---------------------------------------------------------------------------
  // The competitor slide
  // ---------------------------------------------------------------------------

  const CompetitorPrefix := "tmpl_comp_"
  /** The base ids are four words and `top_header`. */
  const CompetitorWords: seq<string> := ["gradient", "label", "name", "line"]
  const MetricKeys: seq<string> := ["subscribers", "views", "videos", "engagement"]
  const MetricParts: seq<string> := ["bg", "accent", "label", "value"]
  const VideoParts: seq<string> := ["bg", "rank", "title", "views", "engagement"]

  /** The objectIds on the competitor template slide, in registry order. */
  function CompetitorIds(): seq<string> {
    Prefixed(CompetitorPrefix, CompetitorWords)
    + Cross(CompetitorPrefix, ["top"], ["header"])
    + Cross(CompetitorPrefix, MetricKeys, MetricParts)
    + Cross(CompetitorPrefix, Numbered("v", 5), VideoParts)
  }

  /** Groups that are distinct, underscore-free and not among `used`. */
  predicate FreshGroups(groups: seq<string>, used: seq<string>) {
    Distinct(groups) && forall g :: g in groups ==> NoUnderscore(g) && g !in used
  }

  /** A words block followed by three crosses of fresh groups has no repeats. */
  lemma WordsThenCrossesDistinct(p: string, words: seq<string>,
                                 g1: seq<string>, q1: seq<string>, g2: seq<string>, q2: seq<string>,
                                 g3: seq<string>, q3: seq<string>)
    requires FreshGroups(words, [])
    requires FreshGroups(g1, []) && FreshGroups(g2, g1) && FreshGroups(g3, g1 + g2)
    requires Distinct(q1) && Distinct(q2) && Distinct(q3)
    ensures Distinct(Prefixed(p, words) + Cross(p, g1, q1) + Cross(p, g2, q2) + Cross(p, g3, q3))
  {
    var a := Prefixed(p, words);
    assert [] + a == a;
    AddWords(p, [], [], [], words);
    AddCross(p, a, words, [], g1, q1);
    assert [] + g1 == g1;
    AddCross(p, a + Cross(p, g1, q1), words, g1, g2, q2);
    AddCross(p, a + Cross(p, g1, q1) + Cross(p, g2, q2), words, g1 + g2, g3, q3);
  }

  lemma CompetitorWordsFresh()
    ensures FreshGroups(CompetitorWords, []) && FreshGroups(["top"], [])
  {
  }

  lemma MetricGroupsFresh()
    ensures FreshGroups(MetricKeys, ["top"])
    ensures Distinct(MetricParts) && Distinct(VideoParts)
  {
  }

  lemma VideoGroupsFresh()
    ensures FreshGroups(Numbered("v", 5), ["top"] + MetricKeys)
  {
    NumberedDistinct("v", 5);
    assert forall g :: g in Numbered("v", 5) ==> |g| == 2;
  }

  /** The competitor registry has 46 entries, no two alike. */
  lemma CompetitorIdsDistinct()
    ensures |CompetitorIds()| == 46
    ensures Distinct(CompetitorIds())
  {
    CompetitorWordsFresh();
    MetricGroupsFresh();
    VideoGroupsFresh();
    WordsThenCrossesDistinct(CompetitorPrefix, CompetitorWords, ["top"], ["header"], MetricKeys, MetricParts,
                             Numbered("v", 5), VideoParts);
  }

  /** The five base ids of the competitor slide, as listed. */
  lemma CompetitorBaseIds()
    ensures Prefixed(CompetitorPrefix, CompetitorWords) + Cross(CompetitorPrefix, ["top"], ["header"])
         == ["tmpl_comp_gradient", "tmpl_comp_label", "tmpl_comp_name", "tmpl_comp_line", "tmpl_comp_top_header"]
  {
    var words := ["tmpl_comp_gradient", "tmpl_comp_label", "tmpl_comp_name", "tmpl_comp_line"];
    forall i | 0 <= i < 4 ensures Prefixed(CompetitorPrefix, CompetitorWords)[i] == words[i] {}
    assert ["top"][..0] == [];
    assert Row(CompetitorPrefix, "top", ["header"])[0] == "tmpl_comp_top_header";
  }

  /** `_competitor_element_ids`: the base ids, then a row per metric key, then a row per video slot. */
  method CompetitorElementIds() returns (ids: seq<string>)
    ensures ids == CompetitorIds()
    ensures |ids| == 46 && Distinct(ids)
  {
    var prefix := CompetitorPrefix;
    ids := ["tmpl_comp_gradient", "tmpl_comp_label", "tmpl_comp_name", "tmpl_comp_line", "tmpl_comp_top_header"];
    CompetitorBaseIds();
    ghost var base := ids;
    var keys := ["subscribers", "views", "videos", "engagement"];
    for k := 0 to |keys|
      invariant ids == base + Cross(CompetitorPrefix, keys[..k], MetricParts)
    {
      assert keys[..k + 1][..k] == keys[..k];
      ids := ids + Row(prefix, keys[k], ["bg", "accent", "label", "value"]);
    }
    assert keys[..|keys|] == MetricKeys;
    for v := 1 to 6
      invariant ids == base + Cross(CompetitorPrefix, MetricKeys, MetricParts)
                       + Cross(CompetitorPrefix, Numbered("v", v - 1), VideoParts)
    {
      assert Numbered("v", v)[..v - 1] == Numbered("v", v - 1);
      ids := ids + Row(prefix, "v" + Digits(v), ["bg", "rank", "title", "views", "engagement"]);
    }
    CompetitorIdsDistinct();
  }

  // ---------------------------------------------------------------------------
  // The idea slide
  // ---------------------------------------------------------------------------

  const IdeaPrefix := "tmpl_idea_"
  const IdeaWords: seq<string> := ["circle", "number", "label", "title", "accent"]
  const PanelParts: seq<string> := ["bg", "accent", "header"]
  const HookParts: seq<string> := ["label", "text"]

  /**
   * The objectIds on the idea template slide, in registry order: the fifteen base ids
   * (five words, the two panels' background, accent and header, two backgrounds, two more
   * words), then the title variations and the hooks.
   */
  function IdeaIds(): seq<string> {
    Prefixed(IdeaPrefix, IdeaWords)
    + Cross(IdeaPrefix, ["titles", "hooks"], PanelParts)
    + Cross(IdeaPrefix, ["bottom", "badge"], ["bg"])
    + Prefixed(IdeaPrefix, ["badge", "topic"])
    + Cross(IdeaPrefix, Numbered("tv", 5), ["text"])
    + Cross(IdeaPrefix, Numbered("hook", 2), HookParts)
  }

  /**
   * A words block, two crosses of fresh groups, a block of fresh words and two more
   * crosses of fresh groups have no repeats.
   */
  lemma IdeaShapeDistinct(p: string, w1: seq<string>, g1: seq<string>, q1: seq<string>,
                          g2: seq<string>, q2: seq<string>, w2: seq<string>,
                          g3: seq<string>, q3: seq<string>, g4: seq<string>, q4: seq<string>)
    requires FreshGroups(w1, []) && FreshGroups(w2, w1)
    requires FreshGroups(g1, []) && FreshGroups(g2, g1) && FreshGroups(g3, g1 + g2) && FreshGroups(g4, g1 + g2 + g3)
    requires Distinct(q1) && Distinct(q2) && Distinct(q3) && Distinct(q4)
    ensures Distinct(Prefixed(p, w1) + Cross(p, g1, q1) + Cross(p, g2, q2) + Prefixed(p, w2)
                     + Cross(p, g3, q3) + Cross(p, g4, q4))
  {
    var a := Prefixed(p, w1);
    assert [] + a == a;
    assert [] + g1 == g1;
    AddWords(p, [], [], [], w1);
    AddCross(p, a, w1, [], g1, q1);
    var b := a + Cross(p, g1, q1);
    AddCross(p, b, w1, g1, g2, q2);
    var c := b + Cross(p, g2, q2);
    AddWords(p, c, w1, g1 + g2, w2);
    var d := c + Prefixed(p, w2);
    AddCross(p, d, w1 + w2, g1 + g2, g3, q3);
    AddCross(p, d + Cross(p, g3, q3), w1 + w2, g1 + g2 + g3, g4, q4);
  }

  lemma IdeaWordsFresh()
    ensures FreshGroups(IdeaWords, []) && FreshGroups(["badge", "topic"], IdeaWords)
  {
  }

  lemma IdeaPanelsFresh()
    ensures FreshGroups(["titles", "hooks"], []) && FreshGroups(["bottom", "badge"], ["titles", "hooks"])
    ensures Distinct(PanelParts) && Distinct(HookParts)
  {
  }

  lemma TitleVariationGroupsFresh()
    ensures FreshGroups(Numbered("tv", 5), ["titles", "hooks"] + ["bottom", "badge"])
  {
    NumberedDistinct("tv", 5);
    assert forall g :: g in Numbered("tv", 5) ==> |g| == 3;
  }

  lemma FreshFromBoth(groups: seq<string>, a: seq<string>, b: seq<string>)
    requires FreshGroups(groups, a)
    requires forall g :: g in groups ==> g !in b
    ensures FreshGroups(groups, a + b)
  {
  }

  lemma HookGroupsFresh()
    ensures FreshGroups(Numbered("hook", 2), ["titles", "hooks"] + ["bottom", "badge"] + Numbered("tv", 5))
  {
    var hooks := Numbered("hook", 2);
    NumberedDistinct("hook", 2);
    assert forall g :: g in hooks ==> |g| == 5 && IsDigit(g[4]);
    assert FreshGroups(hooks, ["titles", "hooks"]);
    FreshFromBoth(hooks, ["titles", "hooks"], ["bottom", "badge"]);
    assert forall g :: g in Numbered("tv", 5) ==> |g| == 3;
    FreshFromBoth(hooks, ["titles", "hooks"] + ["bottom", "badge"], Numbered("tv", 5));
  }

  /** The idea registry has 24 entries, no two alike. */
  lemma IdeaIdsDistinct()
    ensures |IdeaIds()| == 24
    ensures Distinct(IdeaIds())
  {
    IdeaWordsFresh();
    IdeaPanelsFresh();
    TitleVariationGroupsFresh();
    HookGroupsFresh();
    IdeaShapeDistinct(IdeaPrefix, IdeaWords, ["titles", "hooks"], PanelParts, ["bottom", "badge"], ["bg"],
                      ["badge", "topic"], Numbered("tv", 5), ["text"], Numbered("hook", 2), HookParts);
  }

  lemma IdeaWordIds()
    ensures Prefixed(IdeaPrefix, IdeaWords)
         == ["tmpl_idea_circle", "tmpl_idea_number", "tmpl_idea_label", "tmpl_idea_title", "tmpl_idea_accent"]
    ensures Prefixed(IdeaPrefix, ["badge", "topic"]) == ["tmpl_idea_badge", "tmpl_idea_topic"]
  {
    var t := ["tmpl_idea_circle", "tmpl_idea_number", "tmpl_idea_label", "tmpl_idea_title", "tmpl_idea_accent"];
    forall i | 0 <= i < 5 ensures Prefixed(IdeaPrefix, IdeaWords)[i] == t[i] {}
    var u := ["tmpl_idea_badge", "tmpl_idea_topic"];
    forall i | 0 <= i < 2 ensures Prefixed(IdeaPrefix, ["badge", "topic"])[i] == u[i] {}
  }

  lemma IdeaPanelIds()
    ensures Cross(IdeaPrefix, ["titles", "hooks"], PanelParts)
         == ["tmpl_idea_titles_bg", "tmpl_idea_titles_accent", "tmpl_idea_titles_header",
             "tmpl_idea_hooks_bg", "tmpl_idea_hooks_accent", "tmpl_idea_hooks_header"]
  {
    var t := ["tmpl_idea_titles_bg", "tmpl_idea_titles_accent", "tmpl_idea_titles_header"];
    forall i | 0 <= i < 3 ensures Row(IdeaPrefix, "titles", PanelParts)[i] == t[i] {}
    var h := ["tmpl_idea_hooks_bg", "tmpl_idea_hooks_accent", "tmpl_idea_hooks_header"];
    forall i | 0 <= i < 3 ensures Row(IdeaPrefix, "hooks", PanelParts)[i] == h[i] {}
    assert ["titles", "hooks"][..1] == ["titles"];
    assert ["titles"][..0] == [];
  }

  lemma IdeaBackgroundIds()
    ensures Cross(IdeaPrefix, ["bottom", "badge"], ["bg"]) == ["tmpl_idea_bottom_bg", "tmpl_idea_badge_bg"]
  {
    assert Row(IdeaPrefix, "bottom", ["bg"])[0] == "tmpl_idea_bottom_bg";
    assert Row(IdeaPrefix, "badge", ["bg"])[0] == "tmpl_idea_badge_bg";
    assert ["bottom", "badge"][..1] == ["bottom"];
    assert ["bottom"][..0] == [];
  }

  /** The fifteen base ids of the idea slide, as listed. */
  lemma IdeaBaseIds()
    ensures Prefixed(IdeaPrefix, IdeaWords) + Cross(IdeaPrefix, ["titles", "hooks"], PanelParts)
            + Cross(IdeaPrefix, ["bottom", "badge"], ["bg"]) + Prefixed(IdeaPrefix, ["badge", "topic"])
         == ["tmpl_idea_circle", "tmpl_idea_number", "tmpl_idea_label", "tmpl_idea_title", "tmpl_idea_accent",
             "tmpl_idea_titles_bg", "tmpl_idea_titles_accent", "tmpl_idea_titles_header",
             "tmpl_idea_hooks_bg", "tmpl_idea_hooks_accent", "tmpl_idea_hooks_header",
             "tmpl_idea_bottom_bg", "tmpl_idea_badge_bg", "tmpl_idea_badge", "tmpl_idea_topic"]
  {
    IdeaWordIds();
    IdeaPanelIds();
    IdeaBackgroundIds();
  }

  /** `_idea_element_ids`: the base ids, five title-variation ids, then two ids per hook. */
  method IdeaElementIds() returns (ids: seq<string>)
    ensures ids == IdeaIds()
    ensures |ids| == 24 && Distinct(ids)
  {
    ids := ["tmpl_idea_circle", "tmpl_idea_number", "tmpl_idea_label", "tmpl_idea_title", "tmpl_idea_accent",
            "tmpl_idea_titles_bg", "tmpl_idea_titles_accent", "tmpl_idea_titles_header",
            "tmpl_idea_hooks_bg", "tmpl_idea_hooks_accent", "tmpl_idea_hooks_header",
            "tmpl_idea_bottom_bg", "tmpl_idea_badge_bg", "tmpl_idea_badge", "tmpl_idea_topic"];
    IdeaBaseIds();
    ghost var base := ids;
    for i := 1 to 6
      invariant ids == base + Cross(IdeaPrefix, Numbered("tv", i - 1), ["text"])
    {
      assert Numbered("tv", i)[..i - 1] == Numbered("tv", i - 1);
      ids := ids + [IdeaPrefix + Name("tv" + Digits(i), "text")];
    }
    for i := 1 to 3
      invariant ids == base + Cross(IdeaPrefix, Numbered("tv", 5), ["text"])
                       + Cross(IdeaPrefix, Numbered("hook", i - 1), HookParts)
    {
      assert Numbered("hook", i)[..i - 1] == Numbered("hook", i - 1);
      ids := ids + [IdeaPrefix + Name("hook" + Digits(i), "label"), IdeaPrefix + Name("hook" + Digits(i), "text")];
    }
    IdeaIdsDistinct();
  }

  // ---------------------------------------------------------------------------
  // The rename map for a duplicated slide
  // ---------------------------------------------------------------------------

  /** `f"{id}_{suffix}"` */
  function Renamed(id: string, suffix: string): string {
    id + "_" + suffix
  }

  /** The map the loop of `_build_object_ids_map` has built after the given element ids. */
  function ObjectIdsMap(pageId: string, elementIds: seq<string>, suffix: string): map<string, string> {
    if elementIds == [] then map[pageId := Renamed(pageId, suffix)]
    else ObjectIdsMap(pageId, elementIds[..|elementIds| - 1], suffix)[elementIds[|elementIds| - 1] := Renamed(elementIds[|elementIds| - 1], suffix)]
  }

  /** `_build_object_ids_map`: the page id, then every element id, each mapped to its renamed form. */
  method BuildObjectIdsMap(pageId: string, elementIds: seq<string>, suffix: string)
    returns (mapping: map<string, string>)
    ensures mapping == ObjectIdsMap(pageId, elementIds, suffix)
    ensures forall k :: k in mapping <==> k == pageId || k in elementIds
    ensures forall k :: k in mapping ==> mapping[k] == k + "_" + suffix
  {
    mapping := map[pageId := pageId + "_" + suffix];
    for i := 0 to |elementIds|
      invariant mapping == ObjectIdsMap(pageId, elementIds[..i], suffix)
    {
      assert elementIds[..i + 1][..i] == elementIds[..i];
      var eid := elementIds[i];
      mapping := mapping[eid := eid + "_" + suffix];
    }
    assert elementIds[..|elementIds|] == elementIds;
    ObjectIdsMapCorrect(pageId, elementIds, suffix);
  }

  /** The map's keys are the page id and the element ids, and each maps to its renamed form. */
  lemma {:induction false} ObjectIdsMapCorrect(pageId: string, elementIds: seq<string>, suffix: string)
    ensures forall k :: k in ObjectIdsMap(pageId, elementIds, suffix) <==> k == pageId || k in elementIds
    ensures forall k :: k in ObjectIdsMap(pageId, elementIds, suffix) ==>
              ObjectIdsMap(pageId, elementIds, suffix)[k] == Renamed(k, suffix)
    decreases |elementIds|
  {
    if elementIds != [] {
      var init := elementIds[..|elementIds| - 1];
      ObjectIdsMapCorrect(pageId, init, suffix);
      assert elementIds == init + [elementIds[|elementIds| - 1]];
    }
  }

  /** Renaming with one suffix never sends two ids to the same new id. */
  lemma ObjectIdsMapInjective(pageId: string, elementIds: seq<string>, suffix: string, a: string, b: string)
    requires a in ObjectIdsMap(pageId, elementIds, suffix) && b in ObjectIdsMap(pageId, elementIds, suffix)
    requires a != b
    ensures ObjectIdsMap(pageId, elementIds, suffix)[a] != ObjectIdsMap(pageId, elementIds, suffix)[b]
  {
    ObjectIdsMapCorrect(pageId, elementIds, suffix);
    assert a == Renamed(a, suffix)[..|a|];
    assert b == Renamed(b, suffix)[..|b|];
  }

  /** `_map_id`: the duplicated counterpart of a template id, or the id itself. */
  function MapId(templateId: string, idMap: Option<map<string, string>>): string {
    match idMap
    case None => templateId
    case Some(m) => if templateId in m then m[templateId] else templateId
  }

  /**
   * Looking an id up in a slide's rename map gives its renamed form when it is the page
   * or one of its elements, and leaves any other id alone; without a map ids stay as they are.
   */
  lemma MapIdRenames(pageId: string, elementIds: seq<string>, suffix: string, id: string)
    ensures MapId(id, Some(ObjectIdsMap(pageId, elementIds, suffix)))
         == if id == pageId || id in elementIds then id + "_" + suffix else id
    ensures MapId(id, None) == id
  {
    ObjectIdsMapCorrect(pageId, elementIds, suffix);
  }
}
