/** Concrete documents run through the migration: the order packOptions gets
    its settings in, where the content mirrors land, one packOptions shared by
    two rules, and what a document without frameworks does. */
module Scenarios {
  import opened JsonTree
  import opened OrderedObject
  import opened Rules
  import opened RuleProperties
  import opened PipelineProperties

  const EmptyFrameworks: Property := Property("frameworks", JObject([]))

  /** With an empty frameworks object and no compilationOptions the rename
      changes nothing. */
  lemma RenameNothing(ps: Props, f: nat)
    requires Unique(ps) && f < |ps| && ps[f] == EmptyFrameworks
    requires !Has(ps, "compilationOptions")
    ensures RenameCompilationOptions(ps) == Ok(ps)
  {
    IndexOfAt(ps, f);
    RenameCompilationOptionsUnchanged(ps);
  }

  const R: Property := Property("repository", JString("r"))
  const T: Property := Property("tags", JArray([JString("a")]))
  const L: Property := Property("licenseUrl", JString("l"))

  /** repository creates packOptions in its own place. */
  lemma PackRepository()
    ensures MoveToPackOptions([R, T, L, EmptyFrameworks], "repository")
         == Ok([Property("packOptions", JObject([R])), T, L, EmptyFrameworks])
  {
    var s0 := [R, T, L, EmptyFrameworks];
    var pack := Property("packOptions", JObject([R]));
    assert s0[0] == R;
    assert !Has(s0, "packOptions");
    assert IndexOf(s0, "repository") == Some(0) by { IndexOfAt(s0, 0); }
    assert MoveToPackOptions(s0, "repository") == Ok(s0[0 := pack]) by {
      MoveToPackOptionsFresh(s0, "repository");
    }
    assert s0[0 := pack] == [pack, T, L, EmptyFrameworks];
  }

  /** A setting right after packOptions joins it last, and packOptions keeps
      its place. */
  lemma PackJoinNext(pack: Props, p: Property, rest: Props)
    requires WellFormedProps([Property("packOptions", JObject(pack)), p] + rest)
    requires p.name != "packOptions" && !Has(pack, p.name)
    ensures MoveToPackOptions([Property("packOptions", JObject(pack)), p] + rest, p.name)
         == Ok([Property("packOptions", JObject(pack + [p]))] + rest)
  {
    var s := [Property("packOptions", JObject(pack)), p] + rest;
    assert s[0] == Property("packOptions", JObject(pack)) && s[1] == p;
    IndexOfAt(s, 0);
    IndexOfAt(s, 1);
    assert ChildProps(s, "packOptions") == pack;
    MoveToPackOptionsExisting(s, p.name);
    var joined := Property("packOptions", JObject(pack + [p]));
    var s' := [joined, p] + rest;
    assert s[0 := joined] == s';
    assert s'[..1] == [joined] && s'[2..] == rest;
  }

  /** The document tags is moved in. */
  lemma TagsInput()
    ensures WellFormedProps([Property("packOptions", JObject([R])), T] + [L, EmptyFrameworks])
    ensures [Property("packOptions", JObject([R])), T] + [L, EmptyFrameworks]
         == [Property("packOptions", JObject([R])), T, L, EmptyFrameworks]
    ensures !Has([R], "tags")
  {
    var s1 := [Property("packOptions", JObject([R])), T, L, EmptyFrameworks];
    assert WellFormed(T.value) by { assert WellFormed(JString("a")); }
    assert WellFormed(JObject([R]));
    assert Unique(s1);
  }

  /** The document licenseUrl is moved in. */
  lemma LicenseUrlInput()
    ensures WellFormedProps([Property("packOptions", JObject([R, T])), L] + [EmptyFrameworks])
    ensures [Property("packOptions", JObject([R, T])), L] + [EmptyFrameworks]
         == [Property("packOptions", JObject([R, T])), L, EmptyFrameworks]
    ensures !Has([R, T], "licenseUrl")
  {
    var s2 := [Property("packOptions", JObject([R, T])), L, EmptyFrameworks];
    assert WellFormed(T.value) by { assert WellFormed(JString("a")); }
    assert Unique([R, T]);
    assert WellFormed(JObject([R, T]));
    assert Unique(s2);
  }

  /** tags joins the existing packOptions, after repository. */
  lemma PackTags()
    ensures MoveToPackOptions([Property("packOptions", JObject([R])), T, L, EmptyFrameworks], "tags")
         == Ok([Property("packOptions", JObject([R, T])), L, EmptyFrameworks])
  {
    TagsInput();
    PackJoinNext([R], T, [L, EmptyFrameworks]);
    assert [R] + [T] == [R, T];
    assert [Property("packOptions", JObject([R, T]))] + [L, EmptyFrameworks]
        == [Property("packOptions", JObject([R, T])), L, EmptyFrameworks];
  }

  /** licenseUrl joins last. */
  lemma PackLicenseUrl()
    ensures MoveToPackOptions([Property("packOptions", JObject([R, T])), L, EmptyFrameworks], "licenseUrl")
         == Ok([Property("packOptions", JObject([R, T, L])), EmptyFrameworks])
  {
    LicenseUrlInput();
    PackJoinNext([R, T], L, [EmptyFrameworks]);
    assert [R, T] + [L] == [R, T, L];
    assert [Property("packOptions", JObject([R, T, L]))] + [EmptyFrameworks]
        == [Property("packOptions", JObject([R, T, L])), EmptyFrameworks];
  }

  /** The pack settings stage moves the three settings one after another. */
  lemma PackStage()
    ensures MoveAllToPackOptions([R, T, L, EmptyFrameworks], PackOptionProps)
         == Ok([Property("packOptions", JObject([R, T, L])), EmptyFrameworks])
  {
    var s0 := [R, T, L, EmptyFrameworks];
    var s1 := [Property("packOptions", JObject([R])), T, L, EmptyFrameworks];
    var s2 := [Property("packOptions", JObject([R, T])), L, EmptyFrameworks];
    var s3 := [Property("packOptions", JObject([R, T, L])), EmptyFrameworks];
    PackRepository();
    PackTags();
    PackLicenseUrl();
    assert MoveAllToPackOptions(s3, PackOptionProps[3..]) == Ok(s3);
    assert MoveAllToPackOptions(s2, PackOptionProps[2..]) == Ok(s3);
    assert MoveAllToPackOptions(s1, PackOptionProps[1..]) == Ok(s3);
  }

  /** A document that only the rename and the two pack stages touch. */
  lemma ThroughPackStages(s0: Props, s1: Props, s2: Props)
    requires RenameCompilationOptions(s0) == Ok(s0)
    requires MoveAllToPackOptions(s0, PackOptionProps) == Ok(s1)
    requires MovePackIncludeToPackOptions(s1) == Ok(s2)
    requires !Has(s2, "content") && !Has(s2, "contentExclude") && !Has(s2, "contentFiles")
    requires !Has(s2, "resource") && !Has(s2, "namedResource")
    ensures ModifyProject(s0) == Ok(s2)
  {
    ContentStageUnchanged(s2);
    ResourceStageUnchanged(s2);
  }

  /** The packed document has nothing left for the later stages. */
  lemma OrderRest()
    ensures var s3 := [Property("packOptions", JObject([R, T, L])), EmptyFrameworks];
      && MovePackIncludeToPackOptions(s3) == Ok(s3)
      && !Has(s3, "content") && !Has(s3, "contentExclude") && !Has(s3, "contentFiles")
      && !Has(s3, "resource") && !Has(s3, "namedResource")
  {
    var s3 := [Property("packOptions", JObject([R, T, L])), EmptyFrameworks];
    assert !Has(s3, "packInclude");
  }

  /** The three pack settings end up in packOptions in the fixed order, and
      packOptions takes the place repository had. */
  lemma PackOptionsOrder()
    ensures ModifyProject([R, T, L, EmptyFrameworks])
         == Ok([Property("packOptions", JObject([R, T, L])), EmptyFrameworks])
  {
    var s0 := [R, T, L, EmptyFrameworks];
    var s3 := [Property("packOptions", JObject([R, T, L])), EmptyFrameworks];
    RenameNothing(s0, 3);
    PackStage();
    OrderRest();
    ThroughPackStages(s0, s3, s3);
  }

  const Txt: Json := JString("**/*.txt")
  const Publish: Property := Property("publishOptions", JObject([Property("include", Txt)]))
  const Build: Property :=
    Property("buildOptions", JObject([Property("copyToOutput", JObject([Property("include", Txt)]))]))

  /** The content setting is replaced by the two option objects,
      buildOptions first. */
  lemma ContentFirstItem()
    ensures MoveContentItem([Property("content", Txt)], "content", "include") == Ok([Build, Publish])
  {
    var s0 := [Property("content", Txt)];
    IndexOfAt(s0, 0);
    MoveContentItemFresh(s0, "content", "include");
    assert s0[..0] + [Build, Publish] + s0[1..] == [Build, Publish];
  }

  /** The other two content settings are absent. */
  lemma ContentRestAbsent()
    ensures MoveContentItems([Build, Publish], ContentItems[1..]) == Ok([Build, Publish])
  {
    var s1 := [Build, Publish];
    assert ContentItems[1..] == [("contentExclude", "exclude"), ("contentFiles", "includeFiles")];
    assert !Has(s1, "contentExclude") && !Has(s1, "contentFiles");
    MoveContentItemsAbsent(s1, ContentItems[1..]);
  }

  /** A lone content setting is mirrored into both option objects. Both are
      created right after it, buildOptions second, so buildOptions comes
      first. */
  lemma ContentMirrored()
    ensures MoveContent([Property("content", JString("**/*.txt"))])
      == Ok([
        Property("buildOptions", JObject([
          Property("copyToOutput", JObject([Property("include", JString("**/*.txt"))]))])),
        Property("publishOptions", JObject([Property("include", JString("**/*.txt"))]))])
  {
    ContentFirstItem();
    ContentRestAbsent();
    assert ContentItems[0] == ("content", "include");
    assert MoveContent([Property("content", Txt)])
        == MoveContentItems([Build, Publish], ContentItems[1..]);
  }

  /** The whole migration of the same document fails: it has no frameworks. */
  lemma ContentWithoutFrameworksFails()
    ensures ModifyProject([Property("content", JString("**/*.txt"))]) == Err(MissingFrameworks)
  {
    var s0 := [Property("content", JString("**/*.txt"))];
    RenameCompilationOptionsFails(s0);
  }

  const X: Property := Property("tags", JArray([JString("x")]))
  const M: Json := JObject([Property("a.txt", JString("out/a.txt"))])
  const Files: Property := Property("files", JObject([Property("mappings", M)]))

  /** tags creates packOptions in its own place. */
  lemma SharedTags()
    ensures MoveToPackOptions([X, Property("packInclude", M), EmptyFrameworks], "tags")
         == Ok([Property("packOptions", JObject([X])), Property("packInclude", M), EmptyFrameworks])
  {
    var s0 := [X, Property("packInclude", M), EmptyFrameworks];
    IndexOfAt(s0, 0);
    MoveToPackOptionsFresh(s0, "tags");
    assert s0[0 := Property("packOptions", JObject([X]))]
        == [Property("packOptions", JObject([X])), Property("packInclude", M), EmptyFrameworks];
  }

  /** The pack settings stage: only tags is there to move. */
  lemma SharedPackStage()
    ensures MoveAllToPackOptions([X, Property("packInclude", M), EmptyFrameworks], PackOptionProps)
         == Ok([Property("packOptions", JObject([X])), Property("packInclude", M), EmptyFrameworks])
  {
    var s0 := [X, Property("packInclude", M), EmptyFrameworks];
    var s1 := [Property("packOptions", JObject([X])), Property("packInclude", M), EmptyFrameworks];
    assert !Has(s0, "repository") && !Has(s1, "licenseUrl");
    assert MoveToPackOptions(s0, "repository") == Ok(s0);
    SharedTags();
    assert MoveToPackOptions(s1, "licenseUrl") == Ok(s1);
    assert PackOptionProps[1..] == ["tags", "licenseUrl"] && PackOptionProps[1..][1..] == ["licenseUrl"];
    assert MoveAllToPackOptions(s1, ["licenseUrl"]) == Ok(s1);
    assert MoveAllToPackOptions(s0, ["tags", "licenseUrl"]) == Ok(s1);
  }

  /** The packInclude stage reuses that packOptions and adds files.mappings. */
  lemma SharedIncludeStage()
    ensures MovePackIncludeToPackOptions(
              [Property("packOptions", JObject([X])), Property("packInclude", M), EmptyFrameworks])
         == Ok([Property("packOptions", JObject([X, Files])), EmptyFrameworks])
  {
    var s1 := [Property("packOptions", JObject([X])), Property("packInclude", M), EmptyFrameworks];
    IndexOfAt(s1, 0);
    IndexOfAt(s1, 1);
    MovePackIncludeFails(s1);
    MovePackIncludeResult(s1);
    assert PackFiles(s1) == [X, Files] by {
      var empty: Props := [];
      assert ChildProps(s1, "packOptions") == [X];
      assert !Has([X], "files");
      assert IndexOf([X], "files") == None;
      assert ChildProps([X], "files") == empty;
      assert Get(s1, "packInclude") == Some(M);
      assert empty + [Property("mappings", M)] == [Property("mappings", M)];
      assert SetOrAppend([X], "files", JObject([Property("mappings", M)])) == [X, Files];
    }
    assert GetOrAdd(s1, "packOptions", Some(1)).value.parent == s1;
    var s1' := [Property("packOptions", JObject([X, Files])), Property("packInclude", M), EmptyFrameworks];
    assert SetOrAppend(s1, "packOptions", JObject([X, Files])) == s1';
    assert RemoveAt(s1', 1) == [Property("packOptions", JObject([X, Files])), EmptyFrameworks];
  }

  /** The document has nothing to rename. */
  lemma SharedRename()
    ensures RenameCompilationOptions([X, Property("packInclude", M), EmptyFrameworks])
         == Ok([X, Property("packInclude", M), EmptyFrameworks])
  {
    var s0 := [X, Property("packInclude", M), EmptyFrameworks];
    assert Unique(s0);
    assert !Has(s0, "compilationOptions");
    RenameNothing(s0, 2);
  }

  /** The migrated document has nothing left for the content and resource
      stages. */
  lemma SharedRest()
    ensures var s2 := [Property("packOptions", JObject([X, Files])), EmptyFrameworks];
      && !Has(s2, "content") && !Has(s2, "contentExclude") && !Has(s2, "contentFiles")
      && !Has(s2, "resource") && !Has(s2, "namedResource")
  {
  }

  /** tags and packInclude share one packOptions, created by the first rule
      and reused by the second. */
  lemma PackOptionsShared()
    ensures ModifyProject([X, Property("packInclude", M), EmptyFrameworks])
         == Ok([Property("packOptions", JObject([X, Files])), EmptyFrameworks])
  {
    SharedRename();
    SharedPackStage();
    SharedIncludeStage();
    SharedRest();
    ThroughPackStages([X, Property("packInclude", M), EmptyFrameworks],
                      [Property("packOptions", JObject([X])), Property("packInclude", M), EmptyFrameworks],
                      [Property("packOptions", JObject([X, Files])), EmptyFrameworks]);
  }
}
