/** What the whole migration achieves: afterwards none of the legacy names is
    left in the root or in a frameworks entry, what was moved can be found at
    its new place, and a second run changes nothing. */
module PipelineProperties {
  import opened JsonTree
  import opened OrderedObject
  import opened Rules
  import opened RuleProperties

  /** The sources of a list of (source, destination) pairs. */
  predicate IsSource(items: seq<(string, string)>, n: string) {
    exists k :: 0 <= k < |items| && items[k].0 == n
  }

  /** The root names that the stages after the rename move away. */
  predicate Relocated(n: string) {
    || n == "repository" || n == "tags" || n == "licenseUrl" || n == "packInclude"
    || n == "content" || n == "contentExclude" || n == "contentFiles"
    || n == "resource" || n == "namedResource"
  }

  /** The root objects that receive what is moved. */
  predicate IsDestination(n: string) {
    n == "packOptions" || n == "publishOptions" || n == "buildOptions"
  }

  /** frameworks is an object and none of its entries still needs a rename. */
  predicate FrameworksMigrated(ps: Props) {
    && Has(ps, "frameworks") && Get(ps, "frameworks").value.JObject?
    && var fs := Get(ps, "frameworks").value.props;
       forall j :: 0 <= j < |fs| ==> fs[j].value.JObject? && !Has(fs[j].value.props, "compilationOptions")
  }

  /** A root that holds none of the legacy names (compilationOptions and the
      relocated settings) and whose frameworks are migrated. */
  ghost predicate Migrated(ps: Props) {
    && !Has(ps, "compilationOptions")
    && (forall n :: Relocated(n) ==> !Has(ps, n))
    && FrameworksMigrated(ps)
  }

  // ---------------------------------------------------------------------------
  // The rename leaves no compilationOptions

  lemma RenamedHasNoCompilation(before: Props, after: Props)
    requires RenamedProps(before, after)
    ensures !Has(after, "compilationOptions")
  {
    forall j | 0 <= j < |after| ensures after[j].name != "compilationOptions" {
      assert after[j] == Renamed(before[j]);
    }
  }

  /** After the rename neither the root nor any frameworks entry holds
      compilationOptions, and every frameworks entry is an object. */
  lemma RenameCompilationOptionsMigrates(root: Props)
    requires WellFormedProps(root) && RenameCompilationOptions(root).Ok?
    ensures var r := RenameCompilationOptions(root).value;
      && WellFormedProps(r) && !Has(r, "compilationOptions") && FrameworksMigrated(r)
  {
    RenameCompilationOptionsEffect(root);
    RenameCompilationOptionsWellFormed(root);
    var r := RenameCompilationOptions(root).value;
    var f := IndexOf(root, "frameworks").value;
    forall j | 0 <= j < |r| ensures r[j].name != "compilationOptions" {
      if j != f { assert r[j] == Renamed(root[j]); }
    }
    IndexOfAt(r, f);
    var before := root[f].value.props;
    var fs := r[f].value.props;
    forall j | 0 <= j < |fs| ensures fs[j].value.JObject? && !Has(fs[j].value.props, "compilationOptions") {
      assert EntryRenamed(before[j], fs[j]);
      RenamedHasNoCompilation(before[j].value.props, fs[j].value.props);
    }
  }

  // ---------------------------------------------------------------------------
  // The loops of MoveContent and MoveResourcesToBuild

  /** A name is a source of a non-empty table when it is the first
      source or a source of the rest. */
  lemma IsSourceCons(items: seq<(string, string)>, n: string)
    requires items != []
    ensures IsSource(items, n) <==> items[0].0 == n || IsSource(items[1..], n)
  {
    if IsSource(items[1..], n) {
      var k :| 0 <= k < |items[1..]| && items[1..][k].0 == n;
      assert items[k + 1].0 == n;
    }
    if IsSource(items, n) && items[0].0 != n {
      var k :| 0 <= k < |items| && items[k].0 == n;
      assert items[1..][k - 1].0 == n;
    }
  }

  /** The content loop removes every source it handles, keeps the tree well
      formed, and leaves every name other than publishOptions and
      buildOptions that is not a source as it was. */
  lemma {:induction false} MoveContentItemsLookup(ps: Props, items: seq<(string, string)>, n: string)
    requires WellFormedProps(ps)
    requires forall k :: 0 <= k < |items| ==> items[k].0 != "publishOptions" && items[k].0 != "buildOptions"
    requires MoveContentItems(ps, items).Ok?
    ensures WellFormedProps(MoveContentItems(ps, items).value)
    ensures IsSource(items, n) ==> !Has(MoveContentItems(ps, items).value, n)
    ensures !IsSource(items, n) && n != "publishOptions" && n != "buildOptions" ==>
      Get(MoveContentItems(ps, items).value, n) == Get(ps, n)
    decreases |items|
  {
    if items != [] {
      var (src, dest) := items[0];
      var r1 := MoveContentItem(ps, src, dest).value;
      var rest := items[1..];
      assert MoveContentItems(ps, items) == MoveContentItems(r1, rest);
      MoveContentItemWellFormed(ps, src, dest);
      MoveContentItemLookup(ps, src, dest, n);
      MoveContentItemLookup(ps, src, dest, src);
      assert forall k :: 0 <= k < |rest| ==> rest[k] == items[k + 1];
      MoveContentItemsLookup(r1, rest, n);
      MoveContentItemsLookup(r1, rest, src);
      IsSourceCons(items, n);
    }
  }

  /** The resource loop removes every source it handles, keeps the tree well
      formed, and leaves every name other than buildOptions that is not a
      source as it was. */
  lemma {:induction false} MoveResourceItemsLookup(ps: Props, items: seq<(string, string)>, n: string)
    requires WellFormedProps(ps)
    requires forall k :: 0 <= k < |items| ==> items[k].0 != "buildOptions"
    requires MoveResourceItems(ps, items).Ok?
    ensures WellFormedProps(MoveResourceItems(ps, items).value)
    ensures IsSource(items, n) ==> !Has(MoveResourceItems(ps, items).value, n)
    ensures !IsSource(items, n) && n != "buildOptions" ==>
      Get(MoveResourceItems(ps, items).value, n) == Get(ps, n)
    decreases |items|
  {
    if items != [] {
      var (src, dest) := items[0];
      var r1 := MoveResourceItem(ps, src, dest).value;
      var rest := items[1..];
      assert MoveResourceItems(ps, items) == MoveResourceItems(r1, rest);
      MoveResourceItemWellFormed(ps, src, dest);
      MoveResourceItemLookup(ps, src, dest, n);
      MoveResourceItemLookup(ps, src, dest, src);
      assert forall k :: 0 <= k < |rest| ==> rest[k] == items[k + 1];
      MoveResourceItemsLookup(r1, rest, n);
      MoveResourceItemsLookup(r1, rest, src);
      IsSourceCons(items, n);
    }
  }

  // ---------------------------------------------------------------------------
  // The whole pipeline

  /** Which root names each stage after the rename may change. */
  lemma ContentSources(n: string)
    ensures IsSource(ContentItems, n) <==> n == "content" || n == "contentExclude" || n == "contentFiles"
  {
    if n == "content" { assert ContentItems[0].0 == n; }
    if n == "contentExclude" { assert ContentItems[1].0 == n; }
    if n == "contentFiles" { assert ContentItems[2].0 == n; }
  }

  lemma ResourceSources(n: string)
    ensures IsSource(ResourceItems, n) <==> n == "resource" || n == "namedResource"
  {
    if n == "resource" { assert ResourceItems[0].0 == n; }
    if n == "namedResource" { assert ResourceItems[1].0 == n; }
  }

  /** The pack-settings stage removes repository, tags and licenseUrl and
      changes no other name but packOptions. */
  lemma PackStageLookup(s1: Props, s2: Props, n: string)
    requires WellFormedProps(s1) && MoveAllToPackOptions(s1, PackOptionProps) == Ok(s2)
    ensures WellFormedProps(s2)
    ensures n == "repository" || n == "tags" || n == "licenseUrl" ==> !Has(s2, n)
    ensures n != "repository" && n != "tags" && n != "licenseUrl" && n != "packOptions" ==>
      Get(s2, n) == Get(s1, n)
  {
    MoveAllToPackOptionsWellFormed(s1, PackOptionProps);
    MoveAllToPackOptionsLookup(s1, PackOptionProps, n);
  }

  /** The packInclude stage removes packInclude and changes no other name but
      packOptions. */
  lemma IncludeStageLookup(s2: Props, s3: Props, n: string)
    requires WellFormedProps(s2) && MovePackIncludeToPackOptions(s2) == Ok(s3)
    ensures WellFormedProps(s3)
    ensures n == "packInclude" ==> !Has(s3, n)
    ensures n != "packInclude" && n != "packOptions" ==> Get(s3, n) == Get(s2, n)
  {
    MovePackIncludeWellFormed(s2);
    MovePackIncludeLookup(s2, n);
  }

  /** The content stage removes the three content settings and changes no
      other name but publishOptions and buildOptions. */
  lemma ContentStageLookup(s3: Props, s4: Props, n: string)
    requires WellFormedProps(s3) && MoveContent(s3) == Ok(s4)
    ensures WellFormedProps(s4)
    ensures n == "content" || n == "contentExclude" || n == "contentFiles" ==> !Has(s4, n)
    ensures (n != "content" && n != "contentExclude" && n != "contentFiles" &&
             n != "publishOptions" && n != "buildOptions") ==> Get(s4, n) == Get(s3, n)
  {
    ContentSources(n);
    MoveContentItemsLookup(s3, ContentItems, n);
  }

  /** The resource stage removes resource and namedResource and changes no
      other name but buildOptions. */
  lemma ResourceStageLookup(s4: Props, s5: Props, n: string)
    requires WellFormedProps(s4) && MoveResourcesToBuild(s4) == Ok(s5)
    ensures WellFormedProps(s5)
    ensures n == "resource" || n == "namedResource" ==> !Has(s5, n)
    ensures n != "resource" && n != "namedResource" && n != "buildOptions" ==> Get(s5, n) == Get(s4, n)
  {
    ResourceSources(n);
    MoveResourceItemsLookup(s4, ResourceItems, n);
  }

  /** The stages after the rename: every legacy name they handle is gone
      afterwards, and every name outside the legacy names and the three
      option objects keeps its value. */
  lemma RelocationLookup(s1: Props, s2: Props, s3: Props, s4: Props, s5: Props, n: string)
    requires WellFormedProps(s1)
    requires MoveAllToPackOptions(s1, PackOptionProps) == Ok(s2)
    requires MovePackIncludeToPackOptions(s2) == Ok(s3)
    requires MoveContent(s3) == Ok(s4)
    requires MoveResourcesToBuild(s4) == Ok(s5)
    ensures WellFormedProps(s5)
    ensures Relocated(n) ==> !Has(s5, n)
    ensures !Relocated(n) && !IsDestination(n) ==> Get(s5, n) == Get(s1, n)
  {
    PackStageLookup(s1, s2, n);
    IncludeStageLookup(s2, s3, n);
    ContentStageLookup(s3, s4, n);
    ResourceStageLookup(s4, s5, n);
    if Relocated(n) {
      if n == "repository" || n == "tags" || n == "licenseUrl" {
        assert !Has(s2, n);
      } else if n == "packInclude" {
        assert !Has(s3, n);
      } else if n == "content" || n == "contentExclude" || n == "contentFiles" {
        assert !Has(s4, n);
      }
    }
  }

  /** A successful migration leaves a well-formed root without any legacy
      name, with an object for frameworks whose entries hold no
      compilationOptions. */
  lemma ModifyProjectMigrates(root: Props)
    requires WellFormedProps(root) && ModifyProject(root).Ok?
    ensures WellFormedProps(ModifyProject(root).value)
    ensures Migrated(ModifyProject(root).value)
  {
    var s1 := RenameCompilationOptions(root).value;
    RenameCompilationOptionsMigrates(root);
    var s2 := MoveAllToPackOptions(s1, PackOptionProps).value;
    var s3 := MovePackIncludeToPackOptions(s2).value;
    var s4 := MoveContent(s3).value;
    var s5 := MoveResourcesToBuild(s4).value;
    assert ModifyProject(root) == Ok(s5);
    RelocationLookup(s1, s2, s3, s4, s5, "compilationOptions");
    RelocationLookup(s1, s2, s3, s4, s5, "frameworks");
    forall n | Relocated(n) ensures !Has(s5, n) {
      RelocationLookup(s1, s2, s3, s4, s5, n);
    }
  }

  /** Every top-level setting that no rule renames, moves or writes keeps
      its value through the whole migration. */
  lemma ModifyProjectKeepsOthers(root: Props, n: string)
    requires WellFormedProps(root) && ModifyProject(root).Ok?
    requires n != "compilationOptions" && n != "frameworks" && !Relocated(n) && !IsDestination(n)
    ensures Get(ModifyProject(root).value, n) == Get(root, n)
  {
    var s1 := RenameCompilationOptions(root).value;
    var s2 := MoveAllToPackOptions(s1, PackOptionProps).value;
    var s3 := MovePackIncludeToPackOptions(s2).value;
    var s4 := MoveContent(s3).value;
    var s5 := MoveResourcesToBuild(s4).value;
    assert ModifyProject(root) == Ok(s5);
    RenameCompilationOptionsLookup(root, n);
    RenameCompilationOptionsWellFormed(root);
    RelocationLookup(s1, s2, s3, s4, s5, n);
  }

  // ---------------------------------------------------------------------------
  // Idempotence

  /** The frameworks loop changes nothing once every entry from k on is an
      object without compilationOptions. */
  lemma {:induction false} RenameFrameworksUnchanged(fs: Props, k: nat)
    requires k <= |fs|
    requires forall j :: k <= j < |fs| ==> fs[j].value.JObject? && !Has(fs[j].value.props, "compilationOptions")
    ensures RenameFrameworks(fs, k) == Ok(fs)
    decreases |fs| - k
  {
    if k < |fs| {
      assert RenameCompilation(fs[k].value.props) == Ok(fs[k].value.props);
      assert fs[k := Property(fs[k].name, JObject(fs[k].value.props))] == fs;
      RenameFrameworksUnchanged(fs, k + 1);
    }
  }

  /** The pack-settings loop changes nothing when none of the settings is there. */
  lemma {:induction false} MoveAllToPackOptionsAbsent(ps: Props, keys: seq<string>)
    requires forall j :: 0 <= j < |keys| ==> !Has(ps, keys[j])
    ensures MoveAllToPackOptions(ps, keys) == Ok(ps)
    decreases |keys|
  {
    if keys != [] {
      assert MoveToPackOptions(ps, keys[0]) == Ok(ps);
      assert forall j :: 0 <= j < |keys[1..]| ==> keys[1..][j] == keys[j + 1];
      MoveAllToPackOptionsAbsent(ps, keys[1..]);
    }
  }

  /** The content loop changes nothing when none of its sources is there. */
  lemma {:induction false} MoveContentItemsAbsent(ps: Props, items: seq<(string, string)>)
    requires forall j :: 0 <= j < |items| ==> !Has(ps, items[j].0)
    ensures MoveContentItems(ps, items) == Ok(ps)
    decreases |items|
  {
    if items != [] {
      assert MoveContentItem(ps, items[0].0, items[0].1) == Ok(ps);
      assert forall j :: 0 <= j < |items[1..]| ==> items[1..][j] == items[j + 1];
      MoveContentItemsAbsent(ps, items[1..]);
    }
  }

  /** The resource loop changes nothing when none of its sources is there. */
  lemma {:induction false} MoveResourceItemsAbsent(ps: Props, items: seq<(string, string)>)
    requires forall j :: 0 <= j < |items| ==> !Has(ps, items[j].0)
    ensures MoveResourceItems(ps, items) == Ok(ps)
    decreases |items|
  {
    if items != [] {
      assert MoveResourceItem(ps, items[0].0, items[0].1) == Ok(ps);
      assert forall j :: 0 <= j < |items[1..]| ==> items[1..][j] == items[j + 1];
      MoveResourceItemsAbsent(ps, items[1..]);
    }
  }

  /** The rename changes nothing once no compilationOptions is left and
      frameworks is migrated. */
  lemma RenameCompilationOptionsUnchanged(ps: Props)
    requires Unique(ps) && !Has(ps, "compilationOptions") && FrameworksMigrated(ps)
    ensures RenameCompilationOptions(ps) == Ok(ps)
  {
    assert RenameCompilation(ps) == Ok(ps);
    var f := IndexOf(ps, "frameworks").value;
    RenameFrameworksUnchanged(ps[f].value.props, 0);
    SetOrAppendSame(ps, "frameworks");
  }

  /** Without pack settings, packInclude, content or resource settings, the
      stages after the rename change nothing. */
  lemma PackStageUnchanged(ps: Props)
    requires !Has(ps, "repository") && !Has(ps, "tags") && !Has(ps, "licenseUrl")
    ensures MoveAllToPackOptions(ps, PackOptionProps) == Ok(ps)
  {
    MoveAllToPackOptionsAbsent(ps, PackOptionProps);
  }

  lemma ContentStageUnchanged(ps: Props)
    requires !Has(ps, "content") && !Has(ps, "contentExclude") && !Has(ps, "contentFiles")
    ensures MoveContent(ps) == Ok(ps)
  {
    MoveContentItemsAbsent(ps, ContentItems);
  }

  lemma ResourceStageUnchanged(ps: Props)
    requires !Has(ps, "resource") && !Has(ps, "namedResource")
    ensures MoveResourcesToBuild(ps) == Ok(ps)
  {
    MoveResourceItemsAbsent(ps, ResourceItems);
  }

  /** A root holding none of the relocated settings goes through every
      stage unchanged. */
  lemma StagesUnchanged(ps: Props)
    requires Unique(ps) && !Has(ps, "compilationOptions") && FrameworksMigrated(ps)
    requires !Has(ps, "repository") && !Has(ps, "tags") && !Has(ps, "licenseUrl")
    requires !Has(ps, "packInclude")
    requires !Has(ps, "content") && !Has(ps, "contentExclude") && !Has(ps, "contentFiles")
    requires !Has(ps, "resource") && !Has(ps, "namedResource")
    ensures ModifyProject(ps) == Ok(ps)
  {
    assert RenameCompilationOptions(ps) == Ok(ps) by { RenameCompilationOptionsUnchanged(ps); }
    assert MoveAllToPackOptions(ps, PackOptionProps) == Ok(ps) by { PackStageUnchanged(ps); }
    assert MovePackIncludeToPackOptions(ps) == Ok(ps);
    assert MoveContent(ps) == Ok(ps) by { ContentStageUnchanged(ps); }
    assert MoveResourcesToBuild(ps) == Ok(ps) by { ResourceStageUnchanged(ps); }
  }

  /** A migrated root is a fixed point of the migration. */
  lemma MigratedUnchanged(ps: Props)
    requires Unique(ps) && Migrated(ps)
    ensures ModifyProject(ps) == Ok(ps)
  {
    assert Relocated("repository") && Relocated("tags") && Relocated("licenseUrl");
    assert Relocated("packInclude");
    assert Relocated("content") && Relocated("contentExclude") && Relocated("contentFiles");
    assert Relocated("resource") && Relocated("namedResource");
    StagesUnchanged(ps);
  }

  /** Running the migration on its own output changes nothing. */
  lemma ModifyProjectIdempotent(root: Props)
    requires WellFormedProps(root) && ModifyProject(root).Ok?
    ensures ModifyProject(ModifyProject(root).value) == ModifyProject(root)
  {
    ModifyProjectMigrates(root);
    MigratedUnchanged(ModifyProject(root).value);
  }
}
