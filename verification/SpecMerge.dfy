/** How a predictor's own config is merged with the generated InferenceService spec. */
module SpecMerge {
  import opened Json
  import Text

  const NAMED_LISTS := {"containers", "volumes", "volumeMounts", "imagePullSecrets"}

  // ---------- the merge as a function ----------

  function NameOf(item: Json): string {
    Chars(Field(item, "name"))
  }

  /** The first unused item that is an object named `name`, or -1. */
  function FirstNamed(items: seq<Json>, used: seq<bool>, name: string, from: nat): (r: int)
    requires |used| == |items| && from <= |items|
    ensures r == -1 || from <= r < |items|
    decreases |items| - from
  {
    if from == |items| then -1
    else if items[from].Obj? && !used[from] && NameOf(items[from]) == name then from
    else FirstNamed(items, used, name, from + 1)
  }

  function IndexByName(items: seq<Json>, used: seq<bool>, name: string): (r: int)
    requires |used| == |items|
    ensures r == -1 || 0 <= r < |items|
  {
    if name == "" then -1 else FirstNamed(items, used, name, 0)
  }

  function MergeFields(config: map<string, Json>, generated: Json): map<string, Json>
    requires generated.Obj?
    decreases generated, 2
  {
    map key | key in config.Keys + generated.fields.Keys ::
      if key !in generated.fields then config[key]
      else MergeValue(key, if key in config then Text.Some(config[key]) else Text.None, generated.fields[key])
  }

  function MergeValue(key: string, base: Text.Option<Json>, generated: Json): Json
    decreases generated, 3
  {
    if base.Some? && base.value.Obj? && generated.Obj? then
      Obj(MergeFields(base.value.fields, generated))
    else if base.Some? && base.value.List? && generated.List? && key in NAMED_LISTS then
      List(MergeLists(base.value.items, generated.items))
    else generated
  }

  function MergeLists(config: seq<Json>, generated: seq<Json>): seq<Json>
    decreases generated, 2
  {
    MergeFrom(config, NoneUsed(|config|), generated)
  }

  function MergeFrom(config: seq<Json>, used: seq<bool>, generated: seq<Json>): seq<Json>
    requires |used| == |config|
    decreases generated, 1
  {
    if generated == [] then Unused(config, used)
    else
      var i := IndexByName(config, used, NameOf(generated[0]));
      [MergeItem(config, i, generated[0])] + MergeFrom(config, Mark(used, i), generated[1..])
  }

  function MergeItem(config: seq<Json>, i: int, generated: Json): Json
    requires i == -1 || 0 <= i < |config|
    decreases generated, 4
  {
    if i >= 0 && config[i].Obj? && generated.Obj? then Obj(MergeFields(config[i].fields, generated)) else generated
  }

  function Mark(used: seq<bool>, i: int): (r: seq<bool>)
    requires i == -1 || 0 <= i < |used|
    ensures |r| == |used|
  {
    if i >= 0 then used[i := true] else used
  }

  function Unused(config: seq<Json>, used: seq<bool>): seq<Json>
    requires |used| == |config|
  {
    if config == [] then []
    else (if used[0] then [] else [config[0]]) + Unused(config[1..], used[1..])
  }

  // ---------- which config item each generated item takes ----------

  function Matches(config: seq<Json>, used: seq<bool>, generated: seq<Json>): (r: seq<int>)
    requires |used| == |config|
    ensures |r| == |generated|
    ensures forall i :: 0 <= i < |r| ==> r[i] == -1 || 0 <= r[i] < |config|
    decreases |generated|
  {
    if generated == [] then []
    else
      var i := IndexByName(config, used, NameOf(generated[0]));
      [i] + Matches(config, Mark(used, i), generated[1..])
  }

  /** The items left over are those neither used before nor matched. */
  function LeftUsed(used: seq<bool>, matches: seq<int>): (r: seq<bool>)
    ensures |r| == |used|
  {
    seq(|used|, k requires 0 <= k < |used| => used[k] || k in matches)
  }

  lemma {:induction false} FirstNamedMeaning(items: seq<Json>, used: seq<bool>, name: string, from: nat)
    requires |used| == |items| && from <= |items|
    ensures var r := FirstNamed(items, used, name, from);
      && (r >= 0 ==> items[r].Obj? && !used[r] && NameOf(items[r]) == name)
      && (forall k :: from <= k < (if r >= 0 then r else |items|) ==>
            !(items[k].Obj? && !used[k] && NameOf(items[k]) == name))
    decreases |items| - from
  {
    if from < |items| && !(items[from].Obj? && !used[from] && NameOf(items[from]) == name) {
      FirstNamedMeaning(items, used, name, from + 1);
    }
  }

  /** Index i of the output is generated item i, merged into the config item it took;
      then come the config items nobody took. */
  lemma {:induction false} MergeShape(config: seq<Json>, used: seq<bool>, generated: seq<Json>)
    requires |used| == |config|
    ensures var out, took := MergeFrom(config, used, generated), Matches(config, used, generated);
      && |out| >= |generated|
      && (forall i :: 0 <= i < |generated| ==> out[i] == MergeItem(config, took[i], generated[i]))
      && out[|generated|..] == Unused(config, LeftUsed(used, took))
    decreases |generated|
  {
    hide MergeItem, IndexByName, Unused;
    if generated == [] {
      assert LeftUsed(used, []) == used;
    } else {
      var i := IndexByName(config, used, NameOf(generated[0]));
      var rest := Matches(config, Mark(used, i), generated[1..]);
      MergeShape(config, Mark(used, i), generated[1..]);
      assert LeftUsed(Mark(used, i), rest) == LeftUsed(used, [i] + rest);
      var tail := MergeFrom(config, Mark(used, i), generated[1..]);
      assert MergeFrom(config, used, generated) == [MergeItem(config, i, generated[0])] + tail;
    }
  }

  predicate SameName(config: Json, generated: Json) {
    config.Obj? && generated.Obj? && NameOf(generated) != "" && NameOf(config) == NameOf(generated)
  }

  /** A match is to an unused object of the same non-empty name. */
  lemma {:induction false} MatchFits(config: seq<Json>, used: seq<bool>, generated: seq<Json>, i: nat)
    requires |used| == |config| && i < |generated|
    ensures var k := Matches(config, used, generated)[i];
      k >= 0 ==> !used[k] && SameName(config[k], generated[i])
    decreases i
  {
    var name := NameOf(generated[0]);
    if name != "" { FirstNamedMeaning(config, used, name, 0); }
    if i > 0 { MatchFits(config, Mark(used, IndexByName(config, used, name)), generated[1..], i - 1); }
  }

  /** No config item is taken twice. */
  lemma {:induction false} MatchOnce(config: seq<Json>, used: seq<bool>, generated: seq<Json>, i: nat, j: nat)
    requires |used| == |config| && i < j < |generated|
    ensures var took := Matches(config, used, generated); took[i] >= 0 ==> took[i] != took[j]
    decreases i
  {
    var rest := Mark(used, IndexByName(config, used, NameOf(generated[0])));
    if i > 0 {
      MatchOnce(config, rest, generated[1..], i - 1, j - 1);
    } else {
      MatchFits(config, rest, generated[1..], j - 1);
    }
  }

  /** A generated item goes unmatched only when every config object of its name is taken. */
  lemma {:induction false} MatchGreedy(config: seq<Json>, used: seq<bool>, generated: seq<Json>, i: nat, k: nat)
    requires |used| == |config| && i < |generated| && k < |config|
    requires Matches(config, used, generated)[i] == -1 && SameName(config[k], generated[i])
    ensures used[k] || k in Matches(config, used, generated)[..i]
    decreases i
  {
    var first := IndexByName(config, used, NameOf(generated[0]));
    if i == 0 {
      FirstNamedMeaning(config, used, NameOf(generated[0]), 0);
    } else {
      MatchGreedy(config, Mark(used, first), generated[1..], i - 1, k);
      var rest := Matches(config, Mark(used, first), generated[1..]);
      assert Matches(config, used, generated)[..i] == [first] + rest[..i - 1];
    }
  }

  /** A generated item takes the first config object of its name that is still free. */
  lemma {:induction false} MatchFirst(config: seq<Json>, used: seq<bool>, generated: seq<Json>, i: nat, k: nat)
    requires |used| == |config| && i < |generated|
    requires k < Matches(config, used, generated)[i] && SameName(config[k], generated[i])
    ensures used[k] || k in Matches(config, used, generated)[..i]
    decreases i
  {
    var first := IndexByName(config, used, NameOf(generated[0]));
    if i == 0 {
      FirstNamedMeaning(config, used, NameOf(generated[0]), 0);
    } else {
      MatchFirst(config, Mark(used, first), generated[1..], i - 1, k);
      var rest := Matches(config, Mark(used, first), generated[1..]);
      assert Matches(config, used, generated)[..i] == [first] + rest[..i - 1];
    }
  }

  function Hits(took: seq<int>): nat {
    if took == [] then 0 else (if took[0] >= 0 then 1 else 0) + Hits(took[1..])
  }

  function Free(used: seq<bool>): nat {
    if used == [] then 0 else (if used[0] then 0 else 1) + Free(used[1..])
  }

  lemma {:induction false} FreeAfterMark(used: seq<bool>, i: nat)
    requires i < |used| && !used[i]
    ensures Free(used[i := true]) == Free(used) - 1
  {
    if i > 0 {
      FreeAfterMark(used[1..], i - 1);
      assert used[i := true][1..] == used[1..][i - 1 := true];
    } else {
      assert used[i := true][1..] == used[1..];
    }
  }

  lemma {:induction false} UnusedLength(config: seq<Json>, used: seq<bool>)
    requires |used| == |config|
    ensures |Unused(config, used)| == Free(used)
  {
    if config != [] { UnusedLength(config[1..], used[1..]); }
  }

  lemma {:induction false} MergeLength(config: seq<Json>, used: seq<bool>, generated: seq<Json>)
    requires |used| == |config|
    ensures |MergeFrom(config, used, generated)| == |generated| + Free(used) - Hits(Matches(config, used, generated))
    decreases |generated|
  {
    if generated == [] {
      UnusedLength(config, used);
    } else {
      var name := NameOf(generated[0]);
      var i := IndexByName(config, used, name);
      if name != "" { FirstNamedMeaning(config, used, name, 0); }
      if i >= 0 { FreeAfterMark(used, i); }
      MergeLength(config, Mark(used, i), generated[1..]);
    }
  }

  function NoneUsed(n: nat): (r: seq<bool>)
    ensures |r| == n
  {
    seq(n, _ => false)
  }

  lemma {:induction false} AllFree(used: seq<bool>)
    requires forall i :: 0 <= i < |used| ==> !used[i]
    ensures Free(used) == |used|
  {
    if used != [] { AllFree(used[1..]); }
  }

  /** The positions of the config items nobody took, in order. */
  function Kept(used: seq<bool>, at: nat): (r: seq<nat>)
    requires at <= |used|
    ensures forall i :: 0 <= i < |r| ==> at <= r[i] < |used|
    decreases |used| - at
  {
    if at == |used| then [] else (if used[at] then [] else [at]) + Kept(used, at + 1)
  }

  lemma {:induction false} KeptMeaning(config: seq<Json>, used: seq<bool>, at: nat)
    requires |used| == |config| && at <= |used|
    ensures var kept := Kept(used, at);
      && (forall x :: x in kept <==> at <= x < |used| && !used[x])
      && (forall i, j :: 0 <= i < j < |kept| ==> kept[i] < kept[j])
      && |Unused(config[at..], used[at..])| == |kept|
      && (forall i :: 0 <= i < |kept| ==> Unused(config[at..], used[at..])[i] == config[kept[i]])
    decreases |used| - at
  {
    if at < |used| {
      KeptMeaning(config, used, at + 1);
      assert config[at..][1..] == config[at + 1..] && used[at..][1..] == used[at + 1..];
    }
  }

  /** Generated items come first and in order, each merged with the config item it took. */
  ghost predicate HeadMerged(config: seq<Json>, generated: seq<Json>, took: seq<int>, out: seq<Json>) {
    |took| == |generated| <= |out| &&
    forall i :: 0 <= i < |generated| ==>
      && -1 <= took[i] < |config|
      && out[i] == MergeItem(config, took[i], generated[i])
      && (took[i] >= 0 ==> SameName(config[took[i]], generated[i]))
  }

  /** No config item is merged twice. */
  ghost predicate TakenOnce(took: seq<int>) {
    forall i, j :: 0 <= i < j < |took| && took[i] >= 0 ==> took[i] != took[j]
  }

  /** After position `n` come the config items at `kept`, which lists exactly the untaken
      positions, in increasing order. */
  ghost predicate TailKept(config: seq<Json>, took: seq<int>, kept: seq<nat>, out: seq<Json>, n: nat) {
    && |out| == n + |kept|
    && (forall x :: x in kept <==> 0 <= x < |config| && x !in took)
    && (forall i, j :: 0 <= i < j < |kept| ==> kept[i] < kept[j])
    && (forall i :: 0 <= i < |kept| ==> kept[i] < |config| && out[n + i] == config[kept[i]])
  }

  /** Conservation: each config item ends up in the output exactly once, merged or verbatim. */
  lemma NamedListConservation(config: seq<Json>, generated: seq<Json>)
    ensures var out, took := MergeLists(config, generated), Matches(config, NoneUsed(|config|), generated);
      && HeadMerged(config, generated, took, out)
      && TakenOnce(took)
      && TailKept(config, took, Kept(LeftUsed(NoneUsed(|config|), took), 0), out, |generated|)
      && |out| == |generated| + |config| - Hits(took)
  {
    var none := NoneUsed(|config|);
    var out, took := MergeLists(config, generated), Matches(config, none, generated);
    MergeShape(config, none, generated);
    assert HeadMerged(config, generated, took, out) by {
      forall i | 0 <= i < |took| && took[i] >= 0 ensures SameName(config[took[i]], generated[i]) {
        MatchFits(config, none, generated, i);
      }
    }
    assert TakenOnce(took) by {
      forall i, j | 0 <= i < j < |took| && took[i] >= 0 ensures took[i] != took[j] {
        MatchOnce(config, none, generated, i, j);
      }
    }
    MergeLength(config, none, generated);
    AllFree(none);
    UntakenKept(config, generated);
  }

  lemma UntakenKept(config: seq<Json>, generated: seq<Json>)
    ensures var took := Matches(config, NoneUsed(|config|), generated);
      TailKept(config, took, Kept(LeftUsed(NoneUsed(|config|), took), 0), MergeLists(config, generated), |generated|)
  {
    var out, took := MergeLists(config, generated), Matches(config, NoneUsed(|config|), generated);
    var left := LeftUsed(NoneUsed(|config|), took);
    var kept := Kept(left, 0);
    TailIsUnused(config, generated);
    UnusedIsKept(config, left);
    KeptMeaning(config, left, 0);
    assert forall x :: 0 <= x < |config| ==> left[x] == (x in took);
  }

  lemma TailIsUnused(config: seq<Json>, generated: seq<Json>)
    ensures var out, took := MergeLists(config, generated), Matches(config, NoneUsed(|config|), generated);
      var rest := Unused(config, LeftUsed(NoneUsed(|config|), took));
      && |out| == |generated| + |rest|
      && (forall i :: 0 <= i < |rest| ==> out[|generated| + i] == rest[i])
  {
    MergeShape(config, NoneUsed(|config|), generated);
    var out := MergeLists(config, generated);
    assert forall i :: 0 <= i < |out| - |generated| ==> out[|generated| + i] == out[|generated|..][i];
  }

  lemma UnusedIsKept(config: seq<Json>, used: seq<bool>)
    requires |used| == |config|
    ensures |Unused(config, used)| == |Kept(used, 0)|
    ensures forall i :: 0 <= i < |Kept(used, 0)| ==> Unused(config, used)[i] == config[Kept(used, 0)[i]]
  {
    KeptMeaning(config, used, 0);
    assert config[0..] == config && used[0..] == used;
  }

  ghost predicate NamesDistinct(items: seq<Json>) {
    forall i, j :: 0 <= i < j < |items| && NameOf(items[i]) != "" ==> NameOf(items[i]) != NameOf(items[j])
  }

  lemma MergeItemName(config: seq<Json>, i: int, generated: Json)
    requires i == -1 || (0 <= i < |config| && SameName(config[i], generated))
    ensures NameOf(MergeItem(config, i, generated)) == NameOf(generated)
    ensures i >= 0 ==> MergeItem(config, i, generated).Obj?
  {
    if i >= 0 {
      assert generated.fields["name"].Str?;
      assert MergeFields(config[i].fields, generated)["name"] == generated.fields["name"];
    }
  }

  /** Distinct names on both sides stay distinct. */
  lemma NamesStayDistinct(config: seq<Json>, generated: seq<Json>)
    requires NamesDistinct(config) && NamesDistinct(generated)
    ensures NamesDistinct(MergeLists(config, generated))
  {
    NamedListConservation(config, generated);
    var out := MergeLists(config, generated);
    forall i, j | 0 <= i < j < |out| && NameOf(out[i]) != "" ensures NameOf(out[i]) != NameOf(out[j]) {
      NamesDiffer(config, generated, i, j);
    }
  }

  lemma NamesDiffer(config: seq<Json>, generated: seq<Json>, i: nat, j: nat)
    requires NamesDistinct(config) && NamesDistinct(generated)
    requires i < j < |MergeLists(config, generated)| && NameOf(MergeLists(config, generated)[i]) != ""
    ensures NameOf(MergeLists(config, generated)[i]) != NameOf(MergeLists(config, generated)[j])
  {
    var ki := NameAt(config, generated, i);
    var kj := NameAt(config, generated, j);
    if i < |generated| <= j {
      UntakenNameDiffers(config, generated, i, kj);
    } else if i >= |generated| {
      NamedListConservation(config, generated);
      var kept := Kept(LeftUsed(NoneUsed(|config|), Matches(config, NoneUsed(|config|), generated)), 0);
      assert kept[i - |generated|] < kept[j - |generated|];
    }
  }

  /** The name at each output index: that of a generated item, or of an untaken config item. */
  lemma NameAt(config: seq<Json>, generated: seq<Json>, i: nat) returns (k: nat)
    requires i < |MergeLists(config, generated)|
    ensures i < |generated| ==> NameOf(MergeLists(config, generated)[i]) == NameOf(generated[i])
    ensures i >= |generated| ==>
      var took := Matches(config, NoneUsed(|config|), generated);
      var kept := Kept(LeftUsed(NoneUsed(|config|), took), 0);
      && i - |generated| < |kept| && kept[i - |generated|] == k && k < |config| && k !in took
      && NameOf(MergeLists(config, generated)[i]) == NameOf(config[k])
  {
    NamedListConservation(config, generated);
    var out, took := MergeLists(config, generated), Matches(config, NoneUsed(|config|), generated);
    k := 0;
    if i < |generated| {
      MergeItemName(config, took[i], generated[i]);
    } else {
      var kept := Kept(LeftUsed(NoneUsed(|config|), took), 0);
      k := kept[i - |generated|];
      assert k in kept && out[|generated| + (i - |generated|)] == config[k];
    }
  }

  lemma UntakenNameDiffers(config: seq<Json>, generated: seq<Json>, i: nat, k: nat)
    requires NamesDistinct(config) && i < |generated| && k < |config| && NameOf(generated[i]) != ""
    requires k !in Matches(config, NoneUsed(|config|), generated)
    ensures NameOf(config[k]) != NameOf(generated[i])
  {
    var took := Matches(config, NoneUsed(|config|), generated);
    if NameOf(config[k]) == NameOf(generated[i]) {
      MatchFits(config, NoneUsed(|config|), generated, i);
      if took[i] == -1 {
        MatchGreedy(config, NoneUsed(|config|), generated, i, k);
      }
    }
  }

  // ---------- which values are merged ----------

  /** The lists merged by name. */
  predicate MergedByName(key: string) {
    key == "containers" || key == "volumes" || key == "volumeMounts" || key == "imagePullSecrets"
  }

  predicate Named(item: Json, name: string) {
    name != "" && item.Obj? && "name" in item.fields && item.fields["name"] == Str(name)
  }

  /** The fields of a merged object are those of both sides. Where both have one, two objects are
      merged, two lists are merged if their key is one of the four, and otherwise the generated
      value stands. */
  lemma MergedField(config: map<string, Json>, generated: Json, key: string)
    requires generated.Obj?
    ensures var merged := MergeFields(config, generated);
      && (key in merged <==> key in config || key in generated.fields)
      && (key in config && key !in generated.fields ==> merged[key] == config[key])
      && (key !in config && key in generated.fields ==> merged[key] == generated.fields[key])
      && (key in config && key in generated.fields ==>
            var c, g := config[key], generated.fields[key];
            if c.Obj? && g.Obj? then merged[key] == Obj(MergeFields(c.fields, g))
            else if c.List? && g.List? && MergedByName(key) then merged[key] == List(MergeLists(c.items, g.items))
            else merged[key] == g)
  {
  }

  /** A generated item is merged into the config item it takes, and stands alone otherwise. */
  lemma MatchedItemMerged(config: seq<Json>, generated: seq<Json>, i: nat)
    requires i < |generated|
    ensures var out, k := MergeLists(config, generated), Matches(config, NoneUsed(|config|), generated)[i];
      && i < |out|
      && (k >= 0 ==> config[k].Obj? && generated[i].Obj? && out[i] == Obj(MergeFields(config[k].fields, generated[i])))
      && (k < 0 ==> out[i] == generated[i])
  {
    NamedListConservation(config, generated);
  }

  /** With distinct names in the config, a generated item of some name takes the config item of
      that name, if there is one, unless an earlier generated item of the name has. */
  lemma TakesItsName(config: seq<Json>, generated: seq<Json>, i: nat, k: nat, name: string)
    requires i < |generated| && k < |config| && NamesDistinct(config)
    requires Named(generated[i], name) && Named(config[k], name)
    requires forall j :: 0 <= j < i ==> !Named(generated[j], name)
    ensures Matches(config, NoneUsed(|config|), generated)[i] == k
  {
    var none := NoneUsed(|config|);
    var took := Matches(config, none, generated);
    MatchFits(config, none, generated, i);
    if took[i] == -1 {
      MatchGreedy(config, none, generated, i, k);
      var j :| 0 <= j < i && took[j] == k;
      MatchFits(config, none, generated, j);
    }
  }

  /** Under the four keys no config item gets lost whose name no generated item has. Under any
      other key the generated list replaces the config's. */
  lemma ListsUnderKey(config: map<string, Json>, generated: Json, key: string, item: Json)
    requires generated.Obj? && key in config && key in generated.fields
    requires config[key].List? && generated.fields[key].List? && item in config[key].items
    ensures var merged := MergeFields(config, generated);
      && key in merged && merged[key].List?
      && (key == "containers" || key == "volumes" || key == "volumeMounts" || key == "imagePullSecrets" ==>
            (forall name: string, g :: g in generated.fields[key].items && Named(g, name) ==> !Named(item, name)) ==>
              item in merged[key].items)
      && (key != "containers" && key != "volumes" && key != "volumeMounts" && key != "imagePullSecrets" ==>
            merged[key] == generated.fields[key])
  {
    hide MergeLists;
    MergedField(config, generated, key);
    var items := generated.fields[key].items;
    if MergedByName(key) && forall name: string, g :: g in items && Named(g, name) ==> !Named(item, name) {
      UnnamedKept(config[key].items, items, item);
    }
  }

  lemma UnnamedKept(config: seq<Json>, generated: seq<Json>, item: Json)
    requires item in config && forall name: string, g :: g in generated && Named(g, name) ==> !Named(item, name)
    ensures item in MergeLists(config, generated)
  {
    var k :| 0 <= k < |config| && config[k] == item;
    var took := Matches(config, NoneUsed(|config|), generated);
    NamedListConservation(config, generated);
    forall i | 0 <= i < |took| ensures took[i] != k {
      MatchFits(config, NoneUsed(|config|), generated, i);
      assert took[i] == k ==> Named(generated[i], NameOf(item)) && Named(item, NameOf(item));
    }
    var kept := Kept(LeftUsed(NoneUsed(|config|), took), 0);
    assert k in kept;
    var x :| 0 <= x < |kept| && kept[x] == k;
    assert MergeLists(config, generated)[|generated| + x] == item;
  }

  // ---------- what survives at each path ----------

  datatype Step = Key(key: string) | At(index: nat)

  function Get(j: Json, path: seq<Step>): Text.Option<Json> {
    if path == [] then Text.Some(j)
    else match path[0]
      case Key(k) => if j.Obj? && k in j.fields then Get(j.fields[k], path[1..]) else Text.None
      case At(i) => if j.List? && i < |j.items| then Get(j.items[i], path[1..]) else Text.None
  }

  /** `path` leads, through objects and named lists only, to a scalar or an atomic list. */
  predicate Leaf(key: string, j: Json, path: seq<Step>)
    decreases |path|
  {
    if path == [] then !j.Obj? && !(j.List? && key in NAMED_LISTS)
    else match path[0]
      case Key(k) => j.Obj? && k in j.fields && Leaf(k, j.fields[k], path[1..])
      case At(i) => j.List? && key in NAMED_LISTS && i < |j.items| && Leaf("", j.items[i], path[1..])
  }

  /** Every generated leaf sits at its own path in the result, whatever the config. */
  lemma {:induction false} GeneratedLeafWins(key: string, base: Text.Option<Json>, generated: Json, path: seq<Step>)
    requires Leaf(key, generated, path)
    ensures Get(generated, path).Some?
    ensures Get(MergeValue(key, base, generated), path) == Get(generated, path)
    decreases |path|
  {
    if path != [] {
      match path[0]
      case Key(k) =>
        GeneratedLeafWins(k, if base.Some? && base.value.Obj? && k in base.value.fields
          then Text.Some(base.value.fields[k]) else Text.None, generated.fields[k], path[1..]);
      case At(i) =>
        var item := generated.items[i];
        GeneratedLeafWins("", Text.None, item, path[1..]);
        if base.Some? && base.value.List? {
          var config := base.value.items;
          MergeShape(config, NoneUsed(|config|), generated.items);
          var took := Matches(config, NoneUsed(|config|), generated.items)[i];
          GeneratedLeafWins("", if took >= 0 then Text.Some(config[took]) else Text.None, item, path[1..]);
        }
    }
  }

  /** `path` follows keys of generated objects until one that is absent there. */
  predicate Untouched(generated: Json, path: seq<Step>) {
    generated.Obj? && path != [] && path[0].Key? &&
    (path[0].key !in generated.fields || Untouched(generated.fields[path[0].key], path[1..]))
  }

  lemma {:induction false} UntouchedAbsent(generated: Json, path: seq<Step>)
    requires Untouched(generated, path)
    ensures Get(generated, path).None?
    decreases |path|
  {
    if path[0].key in generated.fields { UntouchedAbsent(generated.fields[path[0].key], path[1..]); }
  }

  /** Whatever lies under a key the generated spec does not have is left as the config set it. */
  lemma {:induction false} ConfigKept(config: map<string, Json>, generated: Json, path: seq<Step>)
    requires Untouched(generated, path)
    ensures Get(Obj(MergeFields(config, generated)), path) == Get(Obj(config), path)
    decreases |path|
  {
    var key := path[0].key;
    if key in generated.fields {
      UntouchedAbsent(generated.fields[key], path[1..]);
      if key in config && config[key].Obj? {
        ConfigKept(config[key].fields, generated.fields[key], path[1..]);
      }
    }
  }

  // ---------- merging twice ----------

  /** Every item of every named list is an object with a non-empty string name. */
  predicate WellNamed(key: string, j: Json)
    decreases j
  {
    match j
    case Obj(fields) => forall k :: k in fields ==> WellNamed(k, fields[k])
    case List(items) => key in NAMED_LISTS ==>
      forall i :: 0 <= i < |items| ==> items[i].Obj? && NameOf(items[i]) != "" && WellNamed("", items[i])
    case _ => true
  }

  /** `items` starts with objects that carry the generated items' names, index by index. */
  ghost predicate Aligned(items: seq<Json>, generated: seq<Json>) {
    |generated| <= |items| &&
    forall i :: 0 <= i < |generated| ==> SameName(items[i], generated[i])
  }

  /** On aligned lists the greedy matching takes item i for generated item i. */
  lemma {:induction false} AlignedMatches(items: seq<Json>, used: seq<bool>, generated: seq<Json>, n: nat)
    requires Aligned(items, generated) && n <= |generated| && |used| == |items|
    requires forall i :: 0 <= i < |used| ==> used[i] == (i < n)
    ensures forall i :: 0 <= i < |generated| - n ==> Matches(items, used, generated[n..])[i] == n + i
    decreases |generated| - n
  {
    if n < |generated| {
      var name := NameOf(generated[n]);
      FirstNamedMeaning(items, used, name, 0);
      var first := IndexByName(items, used, NameOf(generated[n..][0]));
      assert first == n;
      assert generated[n..][1..] == generated[n + 1..];
      AlignedMatches(items, Mark(used, n), generated, n + 1);
      var rest := Matches(items, Mark(used, n), generated[n + 1..]);
      assert Matches(items, used, generated[n..]) == [n] + rest;
    }
  }

  lemma {:induction false} UnusedSuffix(items: seq<Json>, used: seq<bool>, n: nat)
    requires |used| == |items| && n <= |items|
    requires forall i :: 0 <= i < |used| ==> used[i] == (i < n)
    ensures Unused(items, used) == items[n..]
  {
    if items != [] {
      UnusedSuffix(items[1..], used[1..], if n > 0 then n - 1 else 0);
      assert n > 0 ==> items[1..][n - 1..] == items[n..];
      assert n == 0 ==> [items[0]] + items[1..] == items;
    }
  }

  /** Merging into an aligned list keeps every item that its own merge keeps. */
  lemma AlignedMerge(items: seq<Json>, generated: seq<Json>)
    requires Aligned(items, generated)
    ensures var out := MergeLists(items, generated);
      && |out| == |items|
      && (forall i :: 0 <= i < |generated| ==> out[i] == Obj(MergeFields(items[i].fields, generated[i])))
      && out[|generated|..] == items[|generated|..]
  {
    var none := NoneUsed(|items|);
    MergeShape(items, none, generated);
    AlignedMatches(items, none, generated, 0);
    assert generated[0..] == generated;
    var took := Matches(items, none, generated);
    var left := LeftUsed(none, took);
    forall k | 0 <= k < |left| ensures left[k] == (k < |generated|) {
      if k < |generated| { assert took[k] == k; }
    }
    UnusedSuffix(items, left, |generated|);
  }

  /** Merging a tree into itself gives it back exactly when it is well named. */
  lemma {:induction false} SelfMerge(key: string, g: Json)
    ensures WellNamed(key, g) <==> MergeValue(key, Text.Some(g), g) == g
    decreases g
  {
    match g
    case Obj(fields) =>
      forall k | k in fields ensures WellNamed(k, fields[k]) <==> MergeValue(k, Text.Some(fields[k]), fields[k]) == fields[k] {
        SelfMerge(k, fields[k]);
      }
      SelfMergeObject(g);
    case List(items) =>
      if key in NAMED_LISTS {
        forall i | 0 <= i < |items| ensures WellNamed("", items[i]) <==> MergeValue("", Text.Some(items[i]), items[i]) == items[i] {
          SelfMerge("", items[i]);
        }
        SelfMergeList(items);
      }
    case _ =>
  }

  lemma SelfMergeObject(g: Json)
    requires g.Obj?
    ensures MergeFields(g.fields, g) == g.fields <==>
      forall k :: k in g.fields ==> MergeValue(k, Text.Some(g.fields[k]), g.fields[k]) == g.fields[k]
  {
    hide MergeValue;
    assert MergeFields(g.fields, g).Keys == g.fields.Keys;
    assert forall k :: k in g.fields ==> MergeFields(g.fields, g)[k] == MergeValue(k, Text.Some(g.fields[k]), g.fields[k]);
  }

  lemma SelfMergeList(items: seq<Json>)
    ensures MergeLists(items, items) == items <==>
      forall i :: 0 <= i < |items| ==>
        items[i].Obj? && NameOf(items[i]) != "" && MergeValue("", Text.Some(items[i]), items[i]) == items[i]
  {
    hide MergeLists, MergeFields, NameOf;
    if forall i :: 0 <= i < |items| ==> items[i].Obj? && NameOf(items[i]) != "" {
      AlignedMerge(items, items);
      assert (forall i :: 0 <= i < |items| ==> MergeLists(items, items)[i] == items[i]) <==> MergeLists(items, items) == items;
    } else {
      var i :| 0 <= i < |items| && !(items[i].Obj? && NameOf(items[i]) != "");
      UnnamedItemGrows(items, items, i);
    }
  }

  lemma {:induction false} HitsBelow(took: seq<int>, i: nat)
    requires i < |took| && took[i] == -1
    ensures Hits(took) < |took|
  {
    HitsBound(took[1..]);
    if i > 0 { HitsBelow(took[1..], i - 1); }
  }

  lemma {:induction false} HitsBound(took: seq<int>)
    ensures Hits(took) <= |took|
  {
    if took != [] { HitsBound(took[1..]); }
  }

  /** A generated item without a name is added once more by every merge. */
  lemma UnnamedItemGrows(config: seq<Json>, generated: seq<Json>, i: nat)
    requires i < |generated| && !(generated[i].Obj? && NameOf(generated[i]) != "")
    ensures |MergeLists(config, generated)| > |config|
  {
    NamedListConservation(config, generated);
    var took := Matches(config, NoneUsed(|config|), generated);
    MatchFits(config, NoneUsed(|config|), generated, i);
    HitsBelow(took, i);
  }

  /** A second merge of a well-named tree changes nothing. */
  lemma {:induction false} MergeTwice(key: string, base: Text.Option<Json>, g: Json)
    requires WellNamed(key, g)
    ensures var once := MergeValue(key, base, g); MergeValue(key, Text.Some(once), g) == once
    decreases g, 1
  {
    SelfMerge(key, g);
    if base.Some? && base.value.Obj? && g.Obj? {
      MergeFieldsTwice(base.value.fields, g);
    } else if base.Some? && base.value.List? && g.List? && key in NAMED_LISTS {
      var config, items := base.value.items, g.items;
      var once := MergeLists(config, items);
      MergeShape(config, NoneUsed(|config|), items);
      forall i | 0 <= i < |items|
        ensures SameName(once[i], items[i]) && Obj(MergeFields(once[i].fields, items[i])) == once[i]
      {
        MergeItemTwice(config, items, i);
      }
      AlignedMerge(once, items);
      var twice := MergeLists(once, items);
      assert forall i :: 0 <= i < |items| ==> twice[i] == once[i];
      assert twice == twice[..|items|] + twice[|items|..];
      assert once == once[..|items|] + once[|items|..];
    }
  }

  lemma {:induction false} MergeItemTwice(config: seq<Json>, generated: seq<Json>, i: nat)
    requires i < |generated|
    requires generated[i].Obj? && NameOf(generated[i]) != "" && WellNamed("", generated[i])
    ensures var once := MergeLists(config, generated);
      i < |once| && SameName(once[i], generated[i]) && Obj(MergeFields(once[i].fields, generated[i])) == once[i]
    decreases generated[i], 2
  {
    NamedListConservation(config, generated);
    var item, k := generated[i], Matches(config, NoneUsed(|config|), generated)[i];
    MergeItemName(config, k, item);
    MergeTwice("", if k >= 0 then Text.Some(config[k]) else Text.None, item);
    SelfMerge("", item);
  }

  lemma {:induction false} MergeFieldsTwice(config: map<string, Json>, g: Json)
    requires g.Obj? && WellNamed("", g)
    ensures MergeFields(MergeFields(config, g), g) == MergeFields(config, g)
    decreases g, 0
  {
    var once := MergeFields(config, g);
    forall k | k in g.fields
      ensures MergeValue(k, Text.Some(once[k]), g.fields[k]) == once[k]
    {
      MergeTwice(k, if k in config then Text.Some(config[k]) else Text.None, g.fields[k]);
    }
    assert MergeFields(once, g).Keys == once.Keys;
  }

  /** Exactly the well-named trees can be merged again without effect on every config. */
  lemma IdempotentIffWellNamed(g: Json)
    requires g.Obj?
    ensures (forall config :: MergeFields(MergeFields(config, g), g) == MergeFields(config, g)) <==> WellNamed("", g)
  {
    if WellNamed("", g) {
      forall config ensures MergeFields(MergeFields(config, g), g) == MergeFields(config, g) {
        MergeFieldsTwice(config, g);
      }
    } else {
      SelfMerge("", g);
      var config := map[];
      assert MergeFields(config, g) == g.fields;
      assert MergeFields(MergeFields(config, g), g) != MergeFields(config, g);
    }
  }

  // ---------- the in-place merge ----------

  method FindByName(items: seq<Json>, used: array<bool>, name: Json) returns (index: int)
    requires used.Length == |items|
    ensures index == IndexByName(items, used[..], Chars(name))
  {
    if Chars(name) != "" {
      var i := 0;
      while i < |items|
        invariant 0 <= i <= |items|
        invariant FirstNamed(items, used[..], Chars(name), i) == FirstNamed(items, used[..], Chars(name), 0)
      {
        if items[i].Obj? && !used[i] && Field(items[i], "name") == name {
          return i;
        }
        i := i + 1;
      }
    }
    return -1;
  }

  /** The object tree being overlaid; `fields` is rewritten key by key. */
  class SpecObject {
    var fields: map<string, Json>

    constructor (fields: map<string, Json>)
      ensures this.fields == fields
    {
      this.fields := fields;
    }

    /** Whatever order the generated keys come in, the result is the functional merge. */
    method MergeSpecMaps(generated: Json)
      requires generated.Obj?
      modifies this
      ensures fields == MergeFields(old(fields), generated)
      decreases generated, 3
    {
      ghost var config := fields;
      ghost var merged := MergeFields(config, generated);
      var todo := generated.fields.Keys;
      while todo != {}
        invariant todo <= generated.fields.Keys
        invariant fields.Keys == config.Keys + (generated.fields.Keys - todo)
        invariant forall k :: k in fields ==> fields[k] == if k in generated.fields.Keys - todo then merged[k] else config[k]
        decreases todo
      {
        var key :| key in todo;
        var value := generated.fields[key];
        if key in fields && fields[key].Obj? && value.Obj? {
          var merged := MergeInto(fields[key], value);
          fields := fields[key := merged];
        } else if key in fields && fields[key].List? && value.List? && key in NAMED_LISTS {
          var merged := MergeNamedLists(fields[key].items, value.items);
          fields := fields[key := List(merged)];
        } else {
          fields := fields[key := value];
        }
        todo := todo - {key};
      }
    }
  }

  method MergeInto(base: Json, override: Json) returns (merged: Json)
    requires base.Obj? && override.Obj?
    ensures merged == Obj(MergeFields(base.fields, override))
    decreases override, 4
  {
    var tree := new SpecObject(base.fields);
    tree.MergeSpecMaps(override);
    merged := Obj(tree.fields);
  }

  lemma MergeStep(config: seq<Json>, used: seq<bool>, generated: seq<Json>, n: nat, out: seq<Json>)
    requires |used| == |config| && n < |generated|
    ensures var i := IndexByName(config, used, NameOf(generated[n]));
      out + MergeFrom(config, used, generated[n..])
      == out + [MergeItem(config, i, generated[n])] + MergeFrom(config, Mark(used, i), generated[n + 1..])
  {
    assert generated[n..][0] == generated[n] && generated[n..][1..] == generated[n + 1..];
  }

  method MergeNamedLists(config: seq<Json>, generated: seq<Json>) returns (out: seq<Json>)
    ensures out == MergeLists(config, generated)
    decreases generated, 1
  {
    out := [];
    var used := new bool[|config|](_ => false);
    assert used[..] == NoneUsed(|config|);
    for n := 0 to |generated|
      invariant out + MergeFrom(config, used[..], generated[n..]) == MergeLists(config, generated)
    {
      var item := generated[n];
      ghost var before := used[..];
      var i := FindByName(config, used, Field(item, "name"));
      if i >= 0 {
        FirstNamedMeaning(config, before, NameOf(item), 0);
        used[i] := true;
        item := MergeInto(config[i], item);
      }
      assert used[..] == Mark(before, i);
      MergeStep(config, before, generated, n, out);
      out := out + [item];
    }
    out := AppendUnused(out, config, used);
  }

  method AppendUnused(head: seq<Json>, config: seq<Json>, used: array<bool>) returns (out: seq<Json>)
    requires used.Length == |config|
    ensures out == head + Unused(config, used[..])
  {
    out := head;
    for n := 0 to |config|
      invariant out + Unused(config[n..], used[n..]) == head + Unused(config, used[..])
    {
      assert config[n..][0] == config[n] && used[n..][0] == used[n];
      assert config[n..][1..] == config[n + 1..] && used[n..][1..] == used[n + 1..];
      if !used[n] {
        out := out + [config[n]];
      }
    }
  }
}
