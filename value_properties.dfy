/** Where the moved values end up: after the whole migration every setting the
    root held can be found, with its original value, at the place its rule
    moves it to, even where several rules share one destination object. */
module ValueProperties {
  import opened JsonTree
  import opened OrderedObject
  import opened Rules
  import opened RuleProperties
  import opened PipelineProperties

  /** publishOptions.d and buildOptions.copyToOutput.d both hold v. */
  predicate ContentStored(ps: Props, d: string, v: Json) {
    && Get(ChildProps(ps, "publishOptions"), d) == Some(v)
    && Get(ChildProps(ChildProps(ps, "buildOptions"), "copyToOutput"), d) == Some(v)
  }

  /** buildOptions.embed.d holds v. */
  predicate EmbedStored(ps: Props, d: string, v: Json) {
    Get(ChildProps(ChildProps(ps, "buildOptions"), "embed"), d) == Some(v)
  }

  /** No two pairs share a source or a destination. */
  predicate DistinctPairs(items: seq<(string, string)>) {
    forall i, j :: 0 <= i < j < |items| ==> items[i].0 != items[j].0 && items[i].1 != items[j].1
  }

  /** Storing v under name and reading back the object stored there. */
  lemma ChildSetOrAppend(ps: Props, name: string, c: Props)
    ensures ChildProps(SetOrAppend(ps, name, JObject(c)), name) == c
  {
    GetSetOrAppend(ps, name, JObject(c), name);
  }

  /** Storing an object under one name leaves the child under another alone. */
  lemma ChildSetOrAppendOther(ps: Props, name: string, v: Json, other: string)
    requires other != name
    ensures ChildProps(SetOrAppend(ps, name, v), other) == ChildProps(ps, other)
  {
    GetSetOrAppend(ps, name, v, other);
  }

  // ---------------------------------------------------------------------------
  // MoveContent

  /** One content setting: its value lands under dest in both mirrors, and
      what the mirrors held under other names stays. */
  lemma MoveContentItemStores(ps: Props, src: string, dest: string, d: string, v: Json)
    requires WellFormedProps(ps) && src != "publishOptions" && src != "buildOptions"
    requires MoveContentItem(ps, src, dest).Ok?
    ensures Has(ps, src) ==> ContentStored(MoveContentItem(ps, src, dest).value, dest, Get(ps, src).value)
    ensures d != dest && ContentStored(ps, d, v) ==> ContentStored(MoveContentItem(ps, src, dest).value, d, v)
  {
    if Has(ps, src) {
      MoveContentItemLookup(ps, src, dest, "publishOptions");
      MoveContentItemLookup(ps, src, dest, "buildOptions");
      MirrorsStore(ps, MoveContentItem(ps, src, dest).value, dest, Get(ps, src).value, d, v);
    }
  }

  /** A document whose mirrors are those of ps with v0 assigned under dest
      holds v0 there, and keeps what ps held under other names. */
  lemma MirrorsStore(ps: Props, r: Props, dest: string, v0: Json, d: string, v: Json)
    requires Get(r, "publishOptions") == Some(JObject(PublishedProps(ps, dest, v0)))
    requires Get(r, "buildOptions") == Some(JObject(CopiedProps(ps, dest, v0)))
    ensures ContentStored(r, dest, v0)
    ensures d != dest && ContentStored(ps, d, v) ==> ContentStored(r, d, v)
  {
    var pub := ChildProps(ps, "publishOptions");
    var b := ChildProps(ps, "buildOptions");
    var copy := ChildProps(b, "copyToOutput");
    assert ChildProps(r, "publishOptions") == SetOrAppend(pub, dest, v0);
    assert ChildProps(ChildProps(r, "buildOptions"), "copyToOutput") == SetOrAppend(copy, dest, v0) by {
      assert ChildProps(r, "buildOptions") == SetOrAppend(b, "copyToOutput", JObject(SetOrAppend(copy, dest, v0)));
      ChildSetOrAppend(b, "copyToOutput", SetOrAppend(copy, dest, v0));
    }
    GetSetOrAppend(pub, dest, v0, dest);
    GetSetOrAppend(copy, dest, v0, dest);
    if d != dest {
      GetSetOrAppend(pub, dest, v0, d);
      GetSetOrAppend(copy, dest, v0, d);
    }
  }

  /** The content loop keeps a mirrored value whose name no later pair writes. */
  lemma {:induction false} MoveContentItemsKeep(ps: Props, items: seq<(string, string)>, d: string, v: Json)
    requires WellFormedProps(ps)
    requires forall k :: 0 <= k < |items| ==> items[k].0 != "publishOptions" && items[k].0 != "buildOptions"
    requires forall k :: 0 <= k < |items| ==> items[k].1 != d
    requires MoveContentItems(ps, items).Ok? && ContentStored(ps, d, v)
    ensures ContentStored(MoveContentItems(ps, items).value, d, v)
    decreases |items|
  {
    if items != [] {
      var (src, dest) := items[0];
      MoveContentItemStores(ps, src, dest, d, v);
      MoveContentItemWellFormed(ps, src, dest);
      var rest := items[1..];
      assert forall k :: 0 <= k < |rest| ==> rest[k] == items[k + 1];
      MoveContentItemsKeep(MoveContentItem(ps, src, dest).value, rest, d, v);
    }
  }

  /** After the content loop, each source the root held has its value under
      its destination name in publishOptions and in buildOptions.copyToOutput. */
  lemma {:induction false} MoveContentItemsStore(ps: Props, items: seq<(string, string)>, k: nat)
    requires WellFormedProps(ps) && DistinctPairs(items)
    requires forall j :: 0 <= j < |items| ==> items[j].0 != "publishOptions" && items[j].0 != "buildOptions"
    requires MoveContentItems(ps, items).Ok?
    requires k < |items| && Has(ps, items[k].0)
    ensures ContentStored(MoveContentItems(ps, items).value, items[k].1, Get(ps, items[k].0).value)
    decreases |items|
  {
    var (src, dest) := items[0];
    var r1 := MoveContentItem(ps, src, dest).value;
    MoveContentItemWellFormed(ps, src, dest);
    var rest := items[1..];
    assert forall j :: 0 <= j < |rest| ==> rest[j] == items[j + 1];
    if k == 0 {
      MoveContentItemStores(ps, src, dest, dest, Get(ps, src).value);
      MoveContentItemsKeep(r1, rest, dest, Get(ps, src).value);
    } else {
      MoveContentItemLookup(ps, src, dest, items[k].0);
      MoveContentItemsStore(r1, rest, k - 1);
    }
  }

  // ---------------------------------------------------------------------------
  // MoveResourcesToBuild

  /** One resource setting: its value lands under dest in buildOptions.embed,
      and what embed held under other names stays. */
  lemma MoveResourceItemStores(ps: Props, src: string, dest: string, d: string, v: Json)
    requires WellFormedProps(ps) && src != "buildOptions"
    requires MoveResourceItem(ps, src, dest).Ok?
    ensures Has(ps, src) ==> EmbedStored(MoveResourceItem(ps, src, dest).value, dest, Get(ps, src).value)
    ensures d != dest && EmbedStored(ps, d, v) ==> EmbedStored(MoveResourceItem(ps, src, dest).value, d, v)
  {
    if Has(ps, src) {
      MoveResourceItemLookup(ps, src, dest, "buildOptions");
      EmbedStore(ps, MoveResourceItem(ps, src, dest).value, dest, Get(ps, src).value, d, v);
    }
  }

  /** A document whose buildOptions is that of ps with v0 assigned under
      embed.dest holds v0 there, and keeps the other embed members. */
  lemma EmbedStore(ps: Props, r: Props, dest: string, v0: Json, d: string, v: Json)
    requires Get(r, "buildOptions") == Some(JObject(EmbeddedProps(ps, dest, v0)))
    ensures EmbedStored(r, dest, v0)
    ensures d != dest && EmbedStored(ps, d, v) ==> EmbedStored(r, d, v)
  {
    var b := ChildProps(ps, "buildOptions");
    var embed := ChildProps(b, "embed");
    ChildSetOrAppend(b, "embed", SetOrAppend(embed, dest, v0));
    GetSetOrAppend(embed, dest, v0, dest);
    GetSetOrAppend(embed, dest, v0, d);
  }

  /** A resource setting leaves both content mirrors as they were. */
  lemma MoveResourceItemKeepsContent(ps: Props, src: string, dest: string, d: string, v: Json)
    requires WellFormedProps(ps) && src != "buildOptions" && src != "publishOptions"
    requires MoveResourceItem(ps, src, dest).Ok?
    requires ContentStored(ps, d, v)
    ensures ContentStored(MoveResourceItem(ps, src, dest).value, d, v)
  {
    var r := MoveResourceItem(ps, src, dest).value;
    if Has(ps, src) {
      var v0 := Get(ps, src).value;
      var b := ChildProps(ps, "buildOptions");
      var embed := ChildProps(b, "embed");
      assert ChildProps(r, "publishOptions") == ChildProps(ps, "publishOptions") by {
        MoveResourceItemLookup(ps, src, dest, "publishOptions");
      }
      assert ChildProps(r, "buildOptions") == SetOrAppend(b, "embed", JObject(SetOrAppend(embed, dest, v0))) by {
        MoveResourceItemLookup(ps, src, dest, "buildOptions");
      }
      ChildSetOrAppendOther(b, "embed", JObject(SetOrAppend(embed, dest, v0)), "copyToOutput");
    } else {
      assert r == ps;
    }
  }

  /** The resource loop keeps an embedded value whose name no later pair
      writes, and keeps every content mirror. */
  lemma {:induction false} MoveResourceItemsKeep(ps: Props, items: seq<(string, string)>, d: string, v: Json)
    requires WellFormedProps(ps)
    requires forall k :: 0 <= k < |items| ==> items[k].0 != "buildOptions" && items[k].0 != "publishOptions"
    requires MoveResourceItems(ps, items).Ok?
    ensures (forall k :: 0 <= k < |items| ==> items[k].1 != d) && EmbedStored(ps, d, v) ==>
      EmbedStored(MoveResourceItems(ps, items).value, d, v)
    ensures ContentStored(ps, d, v) ==> ContentStored(MoveResourceItems(ps, items).value, d, v)
    decreases |items|
  {
    if items != [] {
      var (src, dest) := items[0];
      MoveResourceItemStores(ps, src, dest, d, v);
      if ContentStored(ps, d, v) {
        MoveResourceItemKeepsContent(ps, src, dest, d, v);
      }
      MoveResourceItemWellFormed(ps, src, dest);
      var rest := items[1..];
      assert forall k :: 0 <= k < |rest| ==> rest[k] == items[k + 1];
      MoveResourceItemsKeep(MoveResourceItem(ps, src, dest).value, rest, d, v);
    }
  }

  /** After the resource loop, each source the root held has its value under
      its destination name in buildOptions.embed. */
  lemma {:induction false} MoveResourceItemsStore(ps: Props, items: seq<(string, string)>, k: nat)
    requires WellFormedProps(ps) && DistinctPairs(items)
    requires forall j :: 0 <= j < |items| ==> items[j].0 != "buildOptions" && items[j].0 != "publishOptions"
    requires MoveResourceItems(ps, items).Ok?
    requires k < |items| && Has(ps, items[k].0)
    ensures EmbedStored(MoveResourceItems(ps, items).value, items[k].1, Get(ps, items[k].0).value)
    decreases |items|
  {
    var (src, dest) := items[0];
    var r1 := MoveResourceItem(ps, src, dest).value;
    MoveResourceItemWellFormed(ps, src, dest);
    var rest := items[1..];
    assert forall j :: 0 <= j < |rest| ==> rest[j] == items[j + 1];
    if k == 0 {
      MoveResourceItemStores(ps, src, dest, dest, Get(ps, src).value);
      MoveResourceItemsKeep(r1, rest, dest, Get(ps, src).value);
    } else {
      MoveResourceItemLookup(ps, src, dest, items[k].0);
      MoveResourceItemsStore(r1, rest, k - 1);
    }
  }

  // ---------------------------------------------------------------------------
  // The other buildOptions members

  /** One content setting changes buildOptions only under copyToOutput. */
  lemma MoveContentItemKeepsBuild(ps: Props, src: string, dest: string, n: string)
    requires WellFormedProps(ps) && src != "publishOptions" && src != "buildOptions"
    requires MoveContentItem(ps, src, dest).Ok? && n != "copyToOutput"
    ensures Get(ChildProps(MoveContentItem(ps, src, dest).value, "buildOptions"), n) ==
      Get(ChildProps(ps, "buildOptions"), n)
  {
    MoveContentItemLookup(ps, src, dest, "buildOptions");
    if Has(ps, src) {
      var b := ChildProps(ps, "buildOptions");
      var copy := SetOrAppend(ChildProps(b, "copyToOutput"), dest, Get(ps, src).value);
      GetSetOrAppend(b, "copyToOutput", JObject(copy), n);
    }
  }

  /** The content loop changes buildOptions only under copyToOutput. */
  lemma {:induction false} MoveContentItemsKeepBuild(ps: Props, items: seq<(string, string)>, n: string)
    requires WellFormedProps(ps)
    requires forall k :: 0 <= k < |items| ==> items[k].0 != "publishOptions" && items[k].0 != "buildOptions"
    requires MoveContentItems(ps, items).Ok? && n != "copyToOutput"
    ensures Get(ChildProps(MoveContentItems(ps, items).value, "buildOptions"), n) ==
      Get(ChildProps(ps, "buildOptions"), n)
    decreases |items|
  {
    if items != [] {
      var (src, dest) := items[0];
      MoveContentItemKeepsBuild(ps, src, dest, n);
      MoveContentItemWellFormed(ps, src, dest);
      var rest := items[1..];
      assert forall k :: 0 <= k < |rest| ==> rest[k] == items[k + 1];
      MoveContentItemsKeepBuild(MoveContentItem(ps, src, dest).value, rest, n);
    }
  }

  /** One resource setting changes buildOptions only under embed. */
  lemma MoveResourceItemKeepsBuild(ps: Props, src: string, dest: string, n: string)
    requires WellFormedProps(ps) && src != "buildOptions"
    requires MoveResourceItem(ps, src, dest).Ok? && n != "embed"
    ensures Get(ChildProps(MoveResourceItem(ps, src, dest).value, "buildOptions"), n) ==
      Get(ChildProps(ps, "buildOptions"), n)
  {
    MoveResourceItemLookup(ps, src, dest, "buildOptions");
    if Has(ps, src) {
      var b := ChildProps(ps, "buildOptions");
      var embed := SetOrAppend(ChildProps(b, "embed"), dest, Get(ps, src).value);
      GetSetOrAppend(b, "embed", JObject(embed), n);
    }
  }

  /** The resource loop changes buildOptions only under embed. */
  lemma {:induction false} MoveResourceItemsKeepBuild(ps: Props, items: seq<(string, string)>, n: string)
    requires WellFormedProps(ps)
    requires forall k :: 0 <= k < |items| ==> items[k].0 != "buildOptions"
    requires MoveResourceItems(ps, items).Ok? && n != "embed"
    ensures Get(ChildProps(MoveResourceItems(ps, items).value, "buildOptions"), n) ==
      Get(ChildProps(ps, "buildOptions"), n)
    decreases |items|
  {
    if items != [] {
      var (src, dest) := items[0];
      MoveResourceItemKeepsBuild(ps, src, dest, n);
      MoveResourceItemWellFormed(ps, src, dest);
      var rest := items[1..];
      assert forall k :: 0 <= k < |rest| ==> rest[k] == items[k + 1];
      MoveResourceItemsKeepBuild(MoveResourceItem(ps, src, dest).value, rest, n);
    }
  }

  // ---------------------------------------------------------------------------
  // The whole pipeline

  /** A lookup in a concatenation finds the first part's property, if any. */
  lemma GetConcat(a: Props, b: Props, n: string)
    ensures Get(a + b, n) == if Has(a, n) then Get(a, n) else Get(b, n)
  {
    var ab := a + b;
    if Has(a, n) {
      var i := IndexOf(a, n).value;
      assert forall j :: 0 <= j < i ==> ab[j] == a[j];
      IndexOfFirst(ab, n, i);
    } else if Has(b, n) {
      var i := IndexOf(b, n).value;
      assert ab[|a| + i] == b[i];
      forall j | 0 <= j < |a| + i ensures ab[j].name != n {
        if j >= |a| { assert ab[j] == b[j - |a|]; }
      }
      IndexOfFirst(ab, n, |a| + i);
    } else {
      forall j | 0 <= j < |ab| ensures ab[j].name != n {
        if j >= |a| { assert ab[j] == b[j - |a|]; } else { assert ab[j] == a[j]; }
      }
    }
  }

  /** The pack settings collected by Present are found under their names. */
  lemma {:induction false} GetPresent(ps: Props, keys: seq<string>, n: string)
    ensures Get(Present(ps, keys), n) == if n in keys then Get(ps, n) else None
    decreases |keys|
  {
    if keys != [] {
      var first: Props := if Has(ps, keys[0]) then [Property(keys[0], Get(ps, keys[0]).value)] else [];
      GetPresent(ps, keys[1..], n);
      GetConcat(first, Present(ps, keys[1..]), n);
      assert n in keys <==> n == keys[0] || n in keys[1..];
      if Has(ps, keys[0]) {
        IndexOfAt(first, 0);
      }
    }
  }

  /** A setting the pack loop moves is in packOptions afterwards, with the
      value it had. */
  lemma PackStageStores(s1: Props, s2: Props, keys: seq<string>, key: string)
    requires WellFormedProps(s1) && Distinct(keys) && "packOptions" !in keys
    requires MoveAllToPackOptions(s1, keys) == Ok(s2)
    requires key in keys && Has(s1, key)
    ensures Get(ChildProps(s2, "packOptions"), key) == Get(s1, key)
  {
    MoveAllToPackOptionsLookup(s1, keys, "packOptions");
    PresentEmpty(s1, keys);
    var before := ChildProps(s1, "packOptions");
    MoveAllToPackOptionsFails(s1, keys);
    GetConcat(before, Present(s1, keys), key);
    GetPresent(s1, keys, key);
  }

  /** The pack settings are distinct and none of them is packOptions. */
  lemma PackOptionPropsFacts()
    ensures Distinct(PackOptionProps) && "packOptions" !in PackOptionProps
  {
  }

  /** The packInclude stage keeps packOptions' other members and puts
      packInclude's value at packOptions.files.mappings. */
  lemma IncludeStageStores(s2: Props, s3: Props, key: string)
    requires WellFormedProps(s2) && MovePackIncludeToPackOptions(s2) == Ok(s3)
    requires key != "files"
    ensures Get(ChildProps(s3, "packOptions"), key) == Get(ChildProps(s2, "packOptions"), key)
    ensures Has(s2, "packInclude") ==>
      Get(ChildProps(ChildProps(s3, "packOptions"), "files"), "mappings") == Get(s2, "packInclude")
  {
    MovePackIncludeLookup(s2, "packOptions");
    if Has(s2, "packInclude") {
      MovePackIncludeFails(s2);
      PackFilesStores(s2, key);
    }
  }

  /** The packOptions members PackFiles builds: files.mappings holds
      packInclude's value, and every member other than files is kept. */
  lemma PackFilesStores(ps: Props, key: string)
    requires Has(ps, "packInclude") && key != "files"
    requires !Has(ChildProps(ChildProps(ps, "packOptions"), "files"), "mappings")
    ensures Get(PackFiles(ps), key) == Get(ChildProps(ps, "packOptions"), key)
    ensures Get(ChildProps(PackFiles(ps), "files"), "mappings") == Get(ps, "packInclude")
  {
    var pack := ChildProps(ps, "packOptions");
    var files := ChildProps(pack, "files");
    var m := Property("mappings", Get(ps, "packInclude").value);
    GetSetOrAppend(pack, "files", JObject(files + [m]), key);
    ChildSetOrAppend(pack, "files", files + [m]);
    GetConcat(files, [m], "mappings");
    IndexOfAt([m], 0);
  }

  /** The content and resource stages leave packOptions alone. */
  lemma LaterStagesKeepPack(s3: Props, s4: Props, s5: Props)
    requires WellFormedProps(s3)
    requires MoveContent(s3) == Ok(s4) && MoveResourcesToBuild(s4) == Ok(s5)
    ensures ChildProps(s5, "packOptions") == ChildProps(s3, "packOptions")
  {
    ContentStageLookup(s3, s4, "packOptions");
    ResourceStageLookup(s4, s5, "packOptions");
  }

  /** A name that only the rename, the pack stage and the packInclude stage
      could touch keeps its value through them. */
  lemma EarlyStagesKeep(root: Props, s1: Props, s2: Props, s3: Props, n: string)
    requires WellFormedProps(root) && RenameCompilationOptions(root) == Ok(s1)
    requires MoveAllToPackOptions(s1, PackOptionProps) == Ok(s2)
    requires MovePackIncludeToPackOptions(s2) == Ok(s3)
    requires n != "compilationOptions" && n != "buildOptions" && n != "frameworks"
    requires n != "packOptions" && n != "packInclude"
    requires n != "repository" && n != "tags" && n != "licenseUrl"
    ensures WellFormedProps(s3) && Get(s3, n) == Get(root, n)
  {
    RenameCompilationOptionsWellFormed(root);
    RenameCompilationOptionsLookup(root, n);
    PackStageLookup(s1, s2, n);
    IncludeStageLookup(s2, s3, n);
  }

  /** After the migration the pack settings and packInclude are found in
      packOptions with the values the root held. */
  lemma ModifyProjectStoresPack(root: Props, s1: Props, s2: Props, s3: Props, s4: Props, s5: Props)
    requires WellFormedProps(root) && RenameCompilationOptions(root) == Ok(s1)
    requires MoveAllToPackOptions(s1, PackOptionProps) == Ok(s2)
    requires MovePackIncludeToPackOptions(s2) == Ok(s3)
    requires MoveContent(s3) == Ok(s4) && MoveResourcesToBuild(s4) == Ok(s5)
    ensures forall key :: key in PackOptionProps && Has(root, key) ==>
      Get(ChildProps(s5, "packOptions"), key) == Get(root, key)
    ensures Has(root, "packInclude") ==>
      Get(ChildProps(ChildProps(s5, "packOptions"), "files"), "mappings") == Get(root, "packInclude")
  {
    RenameCompilationOptionsWellFormed(root);
    PackStageLookup(s1, s2, "packOptions");
    IncludeStageLookup(s2, s3, "packOptions");
    LaterStagesKeepPack(s3, s4, s5);
    forall key | key in PackOptionProps && Has(root, key)
      ensures Get(ChildProps(s5, "packOptions"), key) == Get(root, key)
    {
      PackKeyStored(root, s1, s2, s3, key);
    }
    PackIncludeStored(root, s1, s2, s3);
  }

  /** A pack setting the root held is in packOptions after the packInclude
      stage, with its original value. */
  lemma PackKeyStored(root: Props, s1: Props, s2: Props, s3: Props, key: string)
    requires WellFormedProps(root) && WellFormedProps(s1) && RenameCompilationOptions(root) == Ok(s1)
    requires MoveAllToPackOptions(s1, PackOptionProps) == Ok(s2)
    requires MovePackIncludeToPackOptions(s2) == Ok(s3)
    requires key in PackOptionProps && Has(root, key)
    ensures Get(ChildProps(s3, "packOptions"), key) == Get(root, key)
  {
    assert key == "repository" || key == "tags" || key == "licenseUrl";
    RenameCompilationOptionsLookup(root, key);
    PackOptionPropsFacts();
    PackStageStores(s1, s2, PackOptionProps, key);
    PackStageLookup(s1, s2, key);
    IncludeStageStores(s2, s3, key);
  }

  /** packInclude's value is at packOptions.files.mappings after the
      packInclude stage. */
  lemma PackIncludeStored(root: Props, s1: Props, s2: Props, s3: Props)
    requires WellFormedProps(root) && WellFormedProps(s1) && RenameCompilationOptions(root) == Ok(s1)
    requires MoveAllToPackOptions(s1, PackOptionProps) == Ok(s2)
    requires MovePackIncludeToPackOptions(s2) == Ok(s3)
    ensures Has(root, "packInclude") ==>
      Get(ChildProps(ChildProps(s3, "packOptions"), "files"), "mappings") == Get(root, "packInclude")
  {
    RenameCompilationOptionsLookup(root, "packInclude");
    PackStageLookup(s1, s2, "packInclude");
    IncludeStageStores(s2, s3, "packOptions");
  }

  /** What the content table guarantees: distinct sources and destinations,
      and sources that none of the other rules touches. */
  lemma ContentItemsFacts()
    ensures DistinctPairs(ContentItems)
    ensures forall j :: 0 <= j < |ContentItems| ==>
      ContentItems[j].0 != "publishOptions" && ContentItems[j].0 != "buildOptions"
    ensures forall j :: 0 <= j < |ContentItems| ==> ContentItems[j].0 in ["content", "contentExclude", "contentFiles"]
  {
  }

  /** The same for the resource table. */
  lemma ResourceItemsFacts()
    ensures DistinctPairs(ResourceItems)
    ensures forall j :: 0 <= j < |ResourceItems| ==>
      ResourceItems[j].0 != "publishOptions" && ResourceItems[j].0 != "buildOptions"
    ensures forall j :: 0 <= j < |ResourceItems| ==> ResourceItems[j].0 in ["resource", "namedResource"]
    ensures forall j :: 0 <= j < |ResourceItems| ==> ResourceItems[j].1 in ["include", "mappings"]
  {
  }

  /** After the migration a content setting the root held is in both
      mirrors under its destination name, with its value. */
  lemma ContentItemSurvives(root: Props, s1: Props, s2: Props, s3: Props, s4: Props, s5: Props, k: nat)
    requires WellFormedProps(root) && RenameCompilationOptions(root) == Ok(s1)
    requires MoveAllToPackOptions(s1, PackOptionProps) == Ok(s2)
    requires MovePackIncludeToPackOptions(s2) == Ok(s3)
    requires MoveContent(s3) == Ok(s4) && MoveResourcesToBuild(s4) == Ok(s5)
    requires k < |ContentItems| && Has(root, ContentItems[k].0)
    ensures ContentStored(s5, ContentItems[k].1, Get(root, ContentItems[k].0).value)
  {
    var src := ContentItems[k].0;
    var d := ContentItems[k].1;
    var v := Get(root, src).value;
    assert WellFormedProps(s3) && Get(s3, src) == Get(root, src) by {
      ContentItemsFacts();
      assert src == "content" || src == "contentExclude" || src == "contentFiles";
      EarlyStagesKeep(root, s1, s2, s3, src);
    }
    assert ContentStored(s4, d, v) by {
      ContentItemsFacts();
      MoveContentItemsStore(s3, ContentItems, k);
    }
    ContentStageLookup(s3, s4, src);
    ResourceItemsFacts();
    MoveResourceItemsKeep(s4, ResourceItems, d, v);
  }

  /** After the migration a resource setting the root held is in
      buildOptions.embed under its destination name, with its value. */
  lemma ResourceItemSurvives(root: Props, s1: Props, s2: Props, s3: Props, s4: Props, s5: Props, k: nat)
    requires WellFormedProps(root) && RenameCompilationOptions(root) == Ok(s1)
    requires MoveAllToPackOptions(s1, PackOptionProps) == Ok(s2)
    requires MovePackIncludeToPackOptions(s2) == Ok(s3)
    requires MoveContent(s3) == Ok(s4) && MoveResourcesToBuild(s4) == Ok(s5)
    requires k < |ResourceItems| && Has(root, ResourceItems[k].0)
    ensures EmbedStored(s5, ResourceItems[k].1, Get(root, ResourceItems[k].0).value)
  {
    var src := ResourceItems[k].0;
    ResourceItemsFacts();
    assert src == "resource" || src == "namedResource";
    EarlyStagesKeep(root, s1, s2, s3, src);
    ContentStageLookup(s3, s4, src);
    MoveResourceItemsStore(s4, ResourceItems, k);
  }

  /** Every relocated setting the root held is found at its destination with
      its original value: the pack settings and packInclude in packOptions,
      the content settings in publishOptions and buildOptions.copyToOutput,
      the resource settings in buildOptions.embed. */
  lemma ModifyProjectKeepsValues(root: Props)
    requires WellFormedProps(root) && ModifyProject(root).Ok?
    ensures var out := ModifyProject(root).value;
      && (forall key :: key in PackOptionProps && Has(root, key) ==>
            Get(ChildProps(out, "packOptions"), key) == Get(root, key))
      && (Has(root, "packInclude") ==>
            Get(ChildProps(ChildProps(out, "packOptions"), "files"), "mappings") == Get(root, "packInclude"))
      && (forall k :: 0 <= k < |ContentItems| && Has(root, ContentItems[k].0) ==>
            ContentStored(out, ContentItems[k].1, Get(root, ContentItems[k].0).value))
      && (forall k :: 0 <= k < |ResourceItems| && Has(root, ResourceItems[k].0) ==>
            EmbedStored(out, ResourceItems[k].1, Get(root, ResourceItems[k].0).value))
  {
    var s1 := RenameCompilationOptions(root).value;
    var s2 := MoveAllToPackOptions(s1, PackOptionProps).value;
    var s3 := MovePackIncludeToPackOptions(s2).value;
    var s4 := MoveContent(s3).value;
    var s5 := MoveResourcesToBuild(s4).value;
    assert ModifyProject(root) == Ok(s5);
    ModifyProjectStoresPack(root, s1, s2, s3, s4, s5);
    forall k | 0 <= k < |ContentItems| && Has(root, ContentItems[k].0)
      ensures ContentStored(s5, ContentItems[k].1, Get(root, ContentItems[k].0).value)
    {
      ContentItemSurvives(root, s1, s2, s3, s4, s5, k);
    }
    forall k | 0 <= k < |ResourceItems| && Has(root, ResourceItems[k].0)
      ensures EmbedStored(s5, ResourceItems[k].1, Get(root, ResourceItems[k].0).value)
    {
      ResourceItemSurvives(root, s1, s2, s3, s4, s5, k);
    }
  }

  /** buildOptions after the migration holds every member of the renamed
      compilationOptions (or of the buildOptions the root already had)
      except copyToOutput and embed, which the content and resource
      settings extend, with its original value. */
  lemma ModifyProjectKeepsBuildOptions(root: Props, n: string)
    requires WellFormedProps(root) && ModifyProject(root).Ok?
    requires n != "copyToOutput" && n != "embed"
    ensures var from := if Has(root, "compilationOptions") then "compilationOptions" else "buildOptions";
      Get(ChildProps(ModifyProject(root).value, "buildOptions"), n) == Get(ChildProps(root, from), n)
  {
    var s1 := RenameCompilationOptions(root).value;
    var s2 := MoveAllToPackOptions(s1, PackOptionProps).value;
    var s3 := MovePackIncludeToPackOptions(s2).value;
    var s4 := MoveContent(s3).value;
    var s5 := MoveResourcesToBuild(s4).value;
    assert ModifyProject(root) == Ok(s5);
    RenameCompilationOptionsBuild(root);
    RenameCompilationOptionsWellFormed(root);
    PackStageLookup(s1, s2, "buildOptions");
    IncludeStageLookup(s2, s3, "buildOptions");
    assert ChildProps(s3, "buildOptions") == ChildProps(s1, "buildOptions");
    ContentItemsFacts();
    MoveContentItemsKeepBuild(s3, ContentItems, n);
    ContentStageLookup(s3, s4, "buildOptions");
    ResourceItemsFacts();
    MoveResourceItemsKeepBuild(s4, ResourceItems, n);
  }
}
