/** The migration as the program runs it: each rule changes the root object in
    place, and each is proved to leave exactly the tree its function in Rules
    describes, or to fail with the exception that function names.

    Lookup-or-create hands its caller a copy of the child object; the caller
    changes the copy and stores it back under the same name, which replaces
    the child in place. The tree afterwards is the one the JSON library
    reaches by changing the child through a shared reference. */
module Migrator {
  import opened JsonTree
  import opened OrderedObject
  import opened JObjects
  import Rules

  /** The reported outcome agrees with the rule's function, and on success
      the object holds the tree the function computes. After a failure the
      tree is not used: the exception ends the run. */
  ghost predicate Reflects(r: Outcome, now: Props, spec: Result<Props>) {
    match spec
    case Ok(v) => r == Pass && now == v
    case Err(e) => r == Fail(e)
  }

  method GetOrAddProperty(root: JObject, propertyName: string, insertAfter: Option<nat>)
    returns (r: Result<JObject>)
    requires root.Valid()
    requires insertAfter.Some? ==> insertAfter.value < |root.props|
    modifies root
    ensures root.Valid()
    ensures match Rules.GetOrAdd(old(root.props), propertyName, insertAfter)
            case Ok(s) =>
              r.Ok? && fresh(r.value) && r.value.Valid()
              && root.props == s.parent && r.value.props == s.child
            case Err(e) => r == Err(e) && root.props == old(root.props)
  {
    var existing := IndexOf(root.props, propertyName);
    if existing.Some? {
      var v := root.props[existing.value].value;
      if !v.JObject? {
        return Err(NotAnObject(propertyName));
      }
      var child := new JObject(v.props);
      return Ok(child);
    }
    var newProperty := new JObject([]);
    var property := Property(propertyName, JObject([]));
    if insertAfter.Some? {
      root.AddAfterSelf(insertAfter.value, property);
    } else {
      var added := root.Add(property);
      assert added == Pass;
    }
    r := Ok(newProperty);
  }

  /** Replaces compilationOptions by buildOptions with the same value, in
      the same place, when obj has it. */
  method RenameCompilation(obj: JObject) returns (r: Outcome)
    requires obj.Valid()
    modifies obj
    ensures obj.Valid()
    ensures Reflects(r, obj.props, Rules.RenameCompilation(old(obj.props)))
  {
    var compilationOptions := IndexOf(obj.props, "compilationOptions");
    r := Pass;
    if compilationOptions.Some? {
      var i := compilationOptions.value;
      r := obj.Replace(i, Property("buildOptions", obj.props[i].value));
    }
  }

  method RenameCompilationOptions(root: JObject) returns (r: Outcome)
    requires root.Valid()
    modifies root
    ensures root.Valid()
    ensures Reflects(r, root.props, Rules.RenameCompilationOptions(old(root.props)))
  {
    r := RenameCompilation(root);
    if r.Fail? {
      return;
    }
    ghost var renamed := root.props;
    var f := IndexOf(root.props, "frameworks");
    if f.None? {
      return Fail(MissingFrameworks);
    }
    var fv := root.props[f.value].value;
    if !fv.JObject? {
      return Fail(NotAnObject("frameworks"));
    }
    var frameworks := new JObject(fv.props);
    var k := 0;
    while k < |frameworks.props|
      invariant 0 <= k <= |frameworks.props|
      invariant root.props == renamed && root.Valid()
      invariant frameworks.Valid()
      invariant Rules.RenameFrameworks(fv.props, 0) == Rules.RenameFrameworks(frameworks.props, k)
      decreases |frameworks.props| - k
    {
      var item := frameworks.props[k];
      if !item.value.JObject? {
        return Fail(NotAnObject(item.name));
      }
      var tfm := new JObject(item.value.props);
      r := RenameCompilation(tfm);
      if r.Fail? {
        return;
      }
      SetOrAppendAt(frameworks.props, k, JObject(tfm.props));
      frameworks.Set(item.name, JObject(tfm.props));
      k := k + 1;
    }
    root.Set("frameworks", JObject(frameworks.props));
    r := Pass;
  }

  method MoveToPackOptions(root: JObject, item: string) returns (r: Outcome)
    requires root.Valid()
    modifies root
    ensures root.Valid()
    ensures Reflects(r, root.props, Rules.MoveToPackOptions(old(root.props), item))
  {
    var found := IndexOf(root.props, item);
    if found.Some? {
      var i := found.value;
      var property := root.props[i];
      var got := GetOrAddProperty(root, "packOptions", found);
      if got.Err? {
        return Fail(got.error);
      }
      var packOptions := got.value;
      root.Remove(i);
      r := packOptions.Add(property);
      if r.Fail? {
        return;
      }
      root.Set("packOptions", JObject(packOptions.props));
    }
    r := Pass;
  }

  /** child := GetOrAddProperty(parent, name, null); child.Add(p); with the
      changed child stored back under name. */
  method AddToChild(parent: JObject, name: string, p: Property) returns (r: Outcome)
    requires parent.Valid() && WellFormed(p.value)
    modifies parent
    ensures parent.Valid()
    ensures match Rules.GetOrAdd(old(parent.props), name, None)
            case Ok(s) =>
              if Has(s.child, p.name) then r == Fail(DuplicateName(p.name))
              else r == Pass && parent.props == SetOrAppend(s.parent, name, JObject(s.child + [p]))
            case Err(e) => r == Fail(e)
  {
    var got := GetOrAddProperty(parent, name, None);
    if got.Err? {
      return Fail(got.error);
    }
    var child := got.value;
    r := child.Add(p);
    if r.Fail? {
      return;
    }
    parent.Set(name, JObject(child.props));
  }

  method MovePackIncludeToPackOptions(root: JObject) returns (r: Outcome)
    requires root.Valid()
    modifies root
    ensures root.Valid()
    ensures Reflects(r, root.props, Rules.MovePackIncludeToPackOptions(old(root.props)))
  {
    ghost var ps := root.props;
    var packInclude := IndexOf(root.props, "packInclude");
    if packInclude.Some? {
      var i := packInclude.value;
      var value := root.props[i].value;
      var gotPack := GetOrAddProperty(root, "packOptions", packInclude);
      if gotPack.Err? {
        return Fail(gotPack.error);
      }
      var packOptions := gotPack.value;
      r := AddToChild(packOptions, "files", Property("mappings", value));
      if r.Fail? {
        return;
      }
      root.Set("packOptions", JObject(packOptions.props));
      assert Rules.MovePackIncludeToPackOptions(ps) == Ok(RemoveAt(root.props, i));
      root.Remove(i);
    }
    r := Pass;
  }

  /** The embed object of build, created and stored when missing, gets
      value under dest; the changed embed object is stored back. The result
      is the same as a lookup-or-create without an anchor. */
  method StoreInEmbed(build: JObject, dest: string, value: Json) returns (r: Outcome)
    requires build.Valid() && WellFormed(value)
    modifies build
    ensures build.Valid()
    ensures match Rules.GetOrAdd(old(build.props), "embed", None)
            case Ok(s) =>
              r == Pass && build.props == SetOrAppend(s.parent, "embed", JObject(SetOrAppend(s.child, dest, value)))
            case Err(e) => r == Fail(e)
  {
    var e := IndexOf(build.props, "embed");
    var resource;
    if e.None? {
      resource := new JObject([]);
      build.Set("embed", JObject([]));
    } else {
      var ev := build.props[e.value].value;
      if !ev.JObject? {
        return Fail(NotAnObject("embed"));
      }
      resource := new JObject(ev.props);
    }
    resource.Set(dest, value);
    build.Set("embed", JObject(resource.props));
    r := Pass;
  }

  /** One pass of the loop in MoveResourcesToBuild. */
  method MoveResourceItem(root: JObject, src: string, dest: string) returns (r: Outcome)
    requires root.Valid()
    modifies root
    ensures root.Valid()
    ensures Reflects(r, root.props, Rules.MoveResourceItem(old(root.props), src, dest))
  {
    ghost var ps := root.props;
    var property := IndexOf(root.props, src);
    if property.Some? {
      var i := property.value;
      var value := root.props[i].value;
      var gotBuild := GetOrAddProperty(root, "buildOptions", property);
      if gotBuild.Err? {
        return Fail(gotBuild.error);
      }
      var build := gotBuild.value;
      r := StoreInEmbed(build, dest, value);
      if r.Fail? {
        return;
      }
      root.Set("buildOptions", JObject(build.props));
      assert Rules.MoveResourceItem(ps, src, dest) == Ok(RemoveAt(root.props, i));
      root.Remove(i);
    }
    r := Pass;
  }

  method MoveResourcesToBuild(root: JObject) returns (r: Outcome)
    requires root.Valid()
    modifies root
    ensures root.Valid()
    ensures Reflects(r, root.props, Rules.MoveResourcesToBuild(old(root.props)))
  {
    var resourceItems := Rules.ResourceItems;
    var k := 0;
    while k < |resourceItems|
      invariant 0 <= k <= |resourceItems|
      invariant root.Valid()
      invariant Rules.MoveResourceItems(old(root.props), resourceItems)
             == Rules.MoveResourceItems(root.props, resourceItems[k..])
    {
      var (src, dest) := resourceItems[k];
      assert resourceItems[k..][1..] == resourceItems[k + 1..];
      r := MoveResourceItem(root, src, dest);
      if r.Fail? {
        return;
      }
      k := k + 1;
    }
    r := Pass;
  }

  /** child := GetOrAddProperty(parent, name, insertAfter); child[dest] =
      value; with the changed child stored back under name. */
  method StoreInChild(parent: JObject, name: string, insertAfter: Option<nat>, dest: string, value: Json)
    returns (r: Outcome)
    requires parent.Valid() && WellFormed(value)
    requires insertAfter.Some? ==> insertAfter.value < |parent.props|
    modifies parent
    ensures parent.Valid()
    ensures match Rules.GetOrAdd(old(parent.props), name, insertAfter)
            case Ok(s) =>
              r == Pass && parent.props == SetOrAppend(s.parent, name, JObject(SetOrAppend(s.child, dest, value)))
            case Err(e) => r == Fail(e)
  {
    var got := GetOrAddProperty(parent, name, insertAfter);
    if got.Err? {
      return Fail(got.error);
    }
    var child := got.value;
    child.Set(dest, value);
    parent.Set(name, JObject(child.props));
    r := Pass;
  }

  /** child := GetOrAddProperty(parent, name, insertAfter); then
      StoreInChild(child, inner, null, dest, value); with the changed child
      stored back under name. */
  method StoreInGrandchild(parent: JObject, name: string, insertAfter: Option<nat>, inner: string,
                           dest: string, value: Json)
    returns (r: Outcome)
    requires parent.Valid() && WellFormed(value)
    requires insertAfter.Some? ==> insertAfter.value < |parent.props|
    modifies parent
    ensures parent.Valid()
    ensures match Rules.GetOrAdd(old(parent.props), name, insertAfter)
            case Ok(s) =>
              (match Rules.GetOrAdd(s.child, inner, None)
               case Ok(c) =>
                 var child := SetOrAppend(c.parent, inner, JObject(SetOrAppend(c.child, dest, value)));
                 r == Pass && parent.props == SetOrAppend(s.parent, name, JObject(child))
               case Err(e) => r == Fail(e))
            case Err(e) => r == Fail(e)
  {
    var got := GetOrAddProperty(parent, name, insertAfter);
    if got.Err? {
      return Fail(got.error);
    }
    var child := got.value;
    r := StoreInChild(child, inner, None, dest, value);
    if r.Fail? {
      return;
    }
    parent.Set(name, JObject(child.props));
  }

  /** One pass of the loop in MoveContent. */
  method MoveContentItem(root: JObject, src: string, dest: string) returns (r: Outcome)
    requires root.Valid()
    modifies root
    ensures root.Valid()
    ensures Reflects(r, root.props, Rules.MoveContentItem(old(root.props), src, dest))
  {
    ghost var ps := root.props;
    var property := IndexOf(root.props, src);
    if property.Some? {
      var i := property.value;
      var value := root.props[i].value;
      r := StoreInChild(root, "publishOptions", property, dest, value);
      if r.Fail? {
        return;
      }

      r := StoreInGrandchild(root, "buildOptions", property, "copyToOutput", dest, value);
      if r.Fail? {
        return;
      }
      assert Rules.MoveContentItem(ps, src, dest) == Ok(RemoveAt(root.props, i));
      root.Remove(i);
    }
    r := Pass;
  }

  method MoveContent(root: JObject) returns (r: Outcome)
    requires root.Valid()
    modifies root
    ensures root.Valid()
    ensures Reflects(r, root.props, Rules.MoveContent(old(root.props)))
  {
    var contentItems := Rules.ContentItems;
    var k := 0;
    while k < |contentItems|
      invariant 0 <= k <= |contentItems|
      invariant root.Valid()
      invariant Rules.MoveContentItems(old(root.props), contentItems)
             == Rules.MoveContentItems(root.props, contentItems[k..])
    {
      var (src, dest) := contentItems[k];
      assert contentItems[k..][1..] == contentItems[k + 1..];
      r := MoveContentItem(root, src, dest);
      if r.Fail? {
        return;
      }
      k := k + 1;
    }
    r := Pass;
  }

  /** ModifyProject without the parse and the serialisation: the rules run on
      the parsed root in their fixed order, and the first exception ends the
      run. */
  method ModifyProject(root: JObject) returns (r: Outcome)
    requires root.Valid()
    modifies root
    ensures root.Valid()
    ensures Reflects(r, root.props, Rules.ModifyProject(old(root.props)))
  {
    r := RenameCompilationOptions(root);
    if r.Fail? {
      return;
    }
    ghost var renamed := root.props;
    var packOptionProps := Rules.PackOptionProps;
    var k := 0;
    while k < |packOptionProps|
      invariant 0 <= k <= |packOptionProps|
      invariant root.Valid()
      invariant Rules.MoveAllToPackOptions(renamed, packOptionProps)
             == Rules.MoveAllToPackOptions(root.props, packOptionProps[k..])
    {
      assert packOptionProps[k..][1..] == packOptionProps[k + 1..];
      r := MoveToPackOptions(root, packOptionProps[k]);
      if r.Fail? {
        return;
      }
      k := k + 1;
    }
    r := MovePackIncludeToPackOptions(root);
    if r.Fail? {
      return;
    }
    r := MoveContent(root);
    if r.Fail? {
      return;
    }
    r := MoveResourcesToBuild(root);
  }
}
