/** The migration rules as functions from the root object's properties to the
    properties it has afterwards, or to the exception the rule raises. Each
    function follows the statements of its rule one by one; the lemmas below
    them state what the rule achieves. */
module Rules {
  import opened JsonTree
  import opened OrderedObject

  /** The legacy pack settings, in the order they are moved. */
  const PackOptionProps: seq<string> := ["repository", "tags", "licenseUrl"]

  /** Content settings and the field each becomes in publishOptions and in
      buildOptions.copyToOutput. */
  const ContentItems: seq<(string, string)> :=
    [("content", "include"), ("contentExclude", "exclude"), ("contentFiles", "includeFiles")]

  /** Resource settings and the field each becomes in buildOptions.embed. */
  const ResourceItems: seq<(string, string)> :=
    [("resource", "include"), ("namedResource", "mappings")]

  /** A parent object after a child was looked up or created in it, and that
      child's properties. */
  datatype Split = Split(parent: Props, child: Props)

  /** Where a freshly created child goes: right after the anchor, or last. */
  function FreshIndex(ps: Props, anchor: Option<nat>): nat {
    if anchor.Some? then anchor.value + 1 else |ps|
  }

  /** A child that is absent or an object: exactly when a lookup-or-create
      of it succeeds. */
  predicate ObjectOrAbsent(ps: Props, name: string) {
    !Has(ps, name) || Get(ps, name).value.JObject?
  }

  /** GetOrAddProperty: the object stored under name. When name is absent an
      empty object is inserted right after the anchor (or last, without one)
      and every other property keeps its value and relative order; when it is
      present the parent is left as it is; when it holds something that is
      not an object the cast fails. */
  function GetOrAdd(ps: Props, name: string, anchor: Option<nat>): (r: Result<Split>)
    requires anchor.Some? ==> anchor.value < |ps|
    ensures !Has(ps, name) ==>
      && r.Ok? && r.value.child == []
      && FreshIndex(ps, anchor) < |r.value.parent|
      && r.value.parent[FreshIndex(ps, anchor)] == Property(name, JObject([]))
      && RemoveAt(r.value.parent, FreshIndex(ps, anchor)) == ps
    ensures Has(ps, name) ==>
      r == if Get(ps, name).value.JObject? then Ok(Split(ps, Get(ps, name).value.props))
           else Err(NotAnObject(name))
    ensures r.Ok? <==> ObjectOrAbsent(ps, name)
    ensures r.Ok? ==> |r.value.parent| >= |ps|
    ensures r.Ok? && anchor.Some? ==> r.value.parent[anchor.value] == ps[anchor.value]
  {
    match IndexOf(ps, name)
    case Some(i) =>
      if ps[i].value.JObject? then Ok(Split(ps, ps[i].value.props)) else Err(NotAnObject(name))
    case None =>
      var p := Property(name, JObject([]));
      if anchor.Some? then
        var r := InsertAfter(ps, anchor.value, p);
        assert RemoveAt(r, anchor.value + 1) == ps;
        Ok(Split(r, []))
      else
        assert RemoveAt(ps + [p], |ps|) == ps;
        Ok(Split(ps + [p], []))
  }

  // ---------------------------------------------------------------------------
  // RenameCompilationOptions

  /** compilationOptions.Replace(new JProperty("buildOptions", its value)) on one
      object, when it has compilationOptions. */
  function RenameCompilation(ps: Props): Result<Props> {
    match IndexOf(ps, "compilationOptions")
    case None => Ok(ps)
    case Some(i) =>
      if Has(ps, "buildOptions") then Err(DuplicateName("buildOptions"))
      else Ok(ps[i := Property("buildOptions", ps[i].value)])
  }

  /** The loop over the frameworks entries, from entry k on. */
  function RenameFrameworks(fs: Props, k: nat): Result<Props>
    decreases |fs| - k
  {
    if k >= |fs| then Ok(fs)
    else if !fs[k].value.JObject? then Err(NotAnObject(fs[k].name))
    else
      var renamed :- RenameCompilation(fs[k].value.props);
      RenameFrameworks(fs[k := Property(fs[k].name, JObject(renamed))], k + 1)
  }

  function RenameCompilationOptions(root: Props): Result<Props> {
    var r :- RenameCompilation(root);
    match IndexOf(r, "frameworks")
    case None => Err(MissingFrameworks)
    case Some(f) =>
      if !r[f].value.JObject? then Err(NotAnObject("frameworks"))
      else
        var fs :- RenameFrameworks(r[f].value.props, 0);
        Ok(SetOrAppend(r, "frameworks", JObject(fs)))
  }

  // ---------------------------------------------------------------------------
  // MoveToPackOptions

  function MoveToPackOptions(ps: Props, key: string): Result<Props> {
    match IndexOf(ps, key)
    case None => Ok(ps)
    case Some(i) =>
      var pack :- GetOrAdd(ps, "packOptions", Some(i));
      var removed := RemoveAt(pack.parent, i);
      if Has(pack.child, key) then Err(DuplicateName(key))
      else Ok(SetOrAppend(removed, "packOptions", JObject(pack.child + [ps[i]])))
  }

  /** The loop of ModifyProject over the pack settings. */
  function MoveAllToPackOptions(ps: Props, keys: seq<string>): Result<Props>
    decreases |keys|
  {
    if keys == [] then Ok(ps)
    else
      var r :- MoveToPackOptions(ps, keys[0]);
      MoveAllToPackOptions(r, keys[1..])
  }

  // ---------------------------------------------------------------------------
  // MovePackIncludeToPackOptions

  function MovePackIncludeToPackOptions(ps: Props): Result<Props> {
    match IndexOf(ps, "packInclude")
    case None => Ok(ps)
    case Some(i) =>
      var pack :- GetOrAdd(ps, "packOptions", Some(i));
      var files :- GetOrAdd(pack.child, "files", None);
      if Has(files.child, "mappings") then Err(DuplicateName("mappings"))
      else
        var filled := files.child + [Property("mappings", ps[i].value)];
        var pack' := SetOrAppend(files.parent, "files", JObject(filled));
        var ps' := SetOrAppend(pack.parent, "packOptions", JObject(pack'));
        Ok(RemoveAt(ps', i))
  }

  // ---------------------------------------------------------------------------
  // MoveContent

  function MoveContentItem(ps: Props, src: string, dest: string): Result<Props> {
    match IndexOf(ps, src)
    case None => Ok(ps)
    case Some(i) =>
      var v := ps[i].value;
      var publish :- GetOrAdd(ps, "publishOptions", Some(i));
      var ps1 := SetOrAppend(publish.parent, "publishOptions", JObject(SetOrAppend(publish.child, dest, v)));
      var build :- GetOrAdd(ps1, "buildOptions", Some(i));
      var copy :- GetOrAdd(build.child, "copyToOutput", None);
      var build' := SetOrAppend(copy.parent, "copyToOutput", JObject(SetOrAppend(copy.child, dest, v)));
      var ps2 := SetOrAppend(build.parent, "buildOptions", JObject(build'));
      Ok(RemoveAt(ps2, i))
  }

  /** The loop of MoveContent over the content settings. */
  function MoveContentItems(ps: Props, items: seq<(string, string)>): Result<Props>
    decreases |items|
  {
    if items == [] then Ok(ps)
    else
      var r :- MoveContentItem(ps, items[0].0, items[0].1);
      MoveContentItems(r, items[1..])
  }

  function MoveContent(ps: Props): Result<Props> {
    MoveContentItems(ps, ContentItems)
  }

  // ---------------------------------------------------------------------------
  // MoveResourcesToBuild

  /** The embed object is looked up with a cast and, when absent, appended to
      buildOptions: the same as a lookup-or-create without an anchor. */
  function MoveResourceItem(ps: Props, src: string, dest: string): Result<Props> {
    match IndexOf(ps, src)
    case None => Ok(ps)
    case Some(i) =>
      var v := ps[i].value;
      var build :- GetOrAdd(ps, "buildOptions", Some(i));
      var embed :- GetOrAdd(build.child, "embed", None);
      var build' := SetOrAppend(embed.parent, "embed", JObject(SetOrAppend(embed.child, dest, v)));
      var ps1 := SetOrAppend(build.parent, "buildOptions", JObject(build'));
      Ok(RemoveAt(ps1, i))
  }

  /** The loop of MoveResourcesToBuild over the resource settings. */
  function MoveResourceItems(ps: Props, items: seq<(string, string)>): Result<Props>
    decreases |items|
  {
    if items == [] then Ok(ps)
    else
      var r :- MoveResourceItem(ps, items[0].0, items[0].1);
      MoveResourceItems(r, items[1..])
  }

  function MoveResourcesToBuild(ps: Props): Result<Props> {
    MoveResourceItems(ps, ResourceItems)
  }

  // ---------------------------------------------------------------------------
  // ModifyProject

  /** The whole migration of one parsed document: the rename first, so that
      the later rules find the renamed buildOptions, then the pack settings
      in order, packInclude, the content settings and the resources. The
      first rule that fails ends it. */
  function ModifyProject(root: Props): Result<Props> {
    var renamed :- RenameCompilationOptions(root);
    var packed :- MoveAllToPackOptions(renamed, PackOptionProps);
    var included :- MovePackIncludeToPackOptions(packed);
    var content :- MoveContent(included);
    MoveResourcesToBuild(content)
  }
}
