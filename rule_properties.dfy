/** What each migration rule achieves, stated independently of how its
    function in Rules computes it: where values end up, which names
    disappear, what stays as it was, where a fresh object is placed, and
    exactly when the rule fails. */
module RuleProperties {
  import opened JsonTree
  import opened OrderedObject
  import opened Rules

  // ---------------------------------------------------------------------------
  // GetOrAddProperty

  /** Afterwards the parent holds the child under name; every other name
      keeps its value. */
  lemma GetOrAddLookup(ps: Props, name: string, anchor: Option<nat>, n: string)
    requires anchor.Some? ==> anchor.value < |ps|
    requires GetOrAdd(ps, name, anchor).Ok?
    ensures var s := GetOrAdd(ps, name, anchor).value;
      Get(s.parent, n) == if n == name then Some(JObject(s.child)) else Get(ps, n)
  {
    if !Has(ps, name) {
      var p := Property(name, JObject([]));
      if anchor.Some? {
        GetInsertAfter(ps, anchor.value, p, n);
      } else {
        GetAppend(ps, p, n);
      }
    }
  }

  lemma GetOrAddWellFormed(ps: Props, name: string, anchor: Option<nat>)
    requires anchor.Some? ==> anchor.value < |ps|
    requires WellFormedProps(ps) && GetOrAdd(ps, name, anchor).Ok?
    ensures WellFormedProps(GetOrAdd(ps, name, anchor).value.parent)
    ensures WellFormedProps(GetOrAdd(ps, name, anchor).value.child)
  {
    if !Has(ps, name) {
      var p := Property(name, JObject([]));
      if anchor.Some? {
        WellFormedInsertAfter(ps, anchor.value, p);
      } else {
        WellFormedAppend(ps, p);
      }
    } else {
      WellFormedGet(ps, name);
    }
  }

  /** The child handed back is what the parent held under name, if anything. */
  lemma GetOrAddChild(ps: Props, name: string, anchor: Option<nat>)
    requires anchor.Some? ==> anchor.value < |ps|
    requires GetOrAdd(ps, name, anchor).Ok?
    ensures GetOrAdd(ps, name, anchor).value.child == ChildProps(ps, name)
  {
  }

  /** Creating a child last and then storing a value under its name is the
      same as storing the value right away. */
  lemma SetOrAppendAfterGetOrAdd(ps: Props, name: string, v: Json)
    requires GetOrAdd(ps, name, None).Ok?
    ensures SetOrAppend(GetOrAdd(ps, name, None).value.parent, name, v) == SetOrAppend(ps, name, v)
  {
    if !Has(ps, name) {
      var parent := ps + [Property(name, JObject([]))];
      assert GetOrAdd(ps, name, None).value.parent == parent;
      IndexOfFirst(parent, name, |ps|);
      assert parent[|ps| := Property(name, v)] == ps + [Property(name, v)];
    }
  }

  /** Looking a child up after the anchor i and storing v under its name:
      an existing property is overwritten where it stands, a missing one is
      placed right after the anchor. */
  lemma StoreAnchored(ps: Props, i: nat, name: string, v: Json)
    requires i < |ps| && ObjectOrAbsent(ps, name)
    ensures SetOrAppend(GetOrAdd(ps, name, Some(i)).value.parent, name, v)
         == if Has(ps, name) then ps[IndexOf(ps, name).value := Property(name, v)]
            else InsertAfter(ps, i, Property(name, v))
  {
    if !Has(ps, name) {
      var e := Property(name, JObject([]));
      var parent := InsertAfter(ps, i, e);
      assert GetOrAdd(ps, name, Some(i)).value.parent == parent;
      IndexOfFirst(parent, name, i + 1);
      InsertAfterThenReplace(ps, i, e, Property(name, v));
    }
  }

  // ---------------------------------------------------------------------------
  // RenameCompilationOptions

  /** What renaming does to one property: compilationOptions becomes
      buildOptions with the same value, anything else stays. */
  function Renamed(p: Property): Property {
    if p.name == "compilationOptions" then Property("buildOptions", p.value) else p
  }

  /** after is before with compilationOptions renamed in place. */
  predicate RenamedProps(before: Props, after: Props) {
    |after| == |before| && forall j :: 0 <= j < |before| ==> after[j] == Renamed(before[j])
  }

  /** An object that can be renamed: it does not hold both names. */
  predicate Renamable(ps: Props) {
    !(Has(ps, "compilationOptions") && Has(ps, "buildOptions"))
  }

  /** On one object: the rename fails exactly when both names are there, and
      otherwise renames in place and leaves no compilationOptions. */
  lemma RenameCompilationSpec(ps: Props)
    requires Unique(ps)
    ensures RenameCompilation(ps).Ok? <==> Renamable(ps)
    ensures RenameCompilation(ps).Err? ==> RenameCompilation(ps).error == DuplicateName("buildOptions")
    ensures RenameCompilation(ps).Ok? ==>
      RenamedProps(ps, RenameCompilation(ps).value) && !Has(RenameCompilation(ps).value, "compilationOptions")
  {
    if Has(ps, "compilationOptions") && !Has(ps, "buildOptions") {
      var i := IndexOf(ps, "compilationOptions").value;
      var r := RenameCompilation(ps).value;
      forall j | 0 <= j < |ps| ensures r[j] == Renamed(ps[j]) {
        if j != i { assert ps[j].name != ps[i].name; }
      }
    }
  }

  lemma RenameCompilationWellFormed(ps: Props)
    requires WellFormedProps(ps) && RenameCompilation(ps).Ok?
    ensures WellFormedProps(RenameCompilation(ps).value)
  {
    if Has(ps, "compilationOptions") {
      var i := IndexOf(ps, "compilationOptions").value;
      WellFormedReplaceAt(ps, i, Property("buildOptions", ps[i].value));
    }
  }

  /** A frameworks entry the rename accepts: an object that can be renamed. */
  predicate RenamableEntry(p: Property) {
    p.value.JObject? && Renamable(p.value.props)
  }

  /** after is the frameworks entry before with its object renamed in place. */
  predicate EntryRenamed(before: Property, after: Property) {
    && after.name == before.name
    && before.value.JObject? && after.value.JObject?
    && RenamedProps(before.value.props, after.value.props)
  }

  /** after holds the entries of before, each renamed in place. */
  predicate FrameworksRenamed(before: Props, after: Props) {
    |after| == |before| && forall k :: 0 <= k < |before| ==> EntryRenamed(before[k], after[k])
  }

  /** One pass of the frameworks loop: an entry that can be renamed is
      renamed in place and the loop goes on; any other object stops it. */
  lemma RenameFrameworksStep(fs: Props, k: nat)
    requires k < |fs| && fs[k].value.JObject? && Unique(fs[k].value.props)
    ensures var e := fs[k].value.props;
      Renamable(e) ==>
        && RenameCompilation(e).Ok?
        && var next := fs[k := Property(fs[k].name, JObject(RenameCompilation(e).value))];
        && EntryRenamed(fs[k], next[k])
        && RenameFrameworks(fs, k) == RenameFrameworks(next, k + 1)
    ensures !Renamable(fs[k].value.props) ==> RenameFrameworks(fs, k).Err?
  {
    RenameCompilationSpec(fs[k].value.props);
  }

  /** The loop over frameworks from entry k on: it fails exactly when a later
      entry is not an object or holds both names; otherwise the entries
      before k are untouched and every later one is renamed in place. */
  lemma {:induction false} RenameFrameworksSpec(fs: Props, k: nat)
    requires k <= |fs|
    requires forall j :: k <= j < |fs| && fs[j].value.JObject? ==> Unique(fs[j].value.props)
    ensures RenameFrameworks(fs, k).Ok? <==> forall j :: k <= j < |fs| ==> RenamableEntry(fs[j])
    ensures RenameFrameworks(fs, k).Ok? ==>
      var r := RenameFrameworks(fs, k).value;
      && |r| == |fs|
      && (forall j :: 0 <= j < k ==> r[j] == fs[j])
      && (forall j :: k <= j < |fs| ==> EntryRenamed(fs[j], r[j]))
    decreases |fs| - k
  {
    if k < |fs| && fs[k].value.JObject? {
      var e := fs[k].value.props;
      RenameFrameworksStep(fs, k);
      if Renamable(e) {
        var next := fs[k := Property(fs[k].name, JObject(RenameCompilation(e).value))];
        assert forall j :: k < j < |fs| ==> next[j] == fs[j];
        RenameFrameworksSpec(next, k + 1);
        if RenameFrameworks(next, k + 1).Ok? {
          var r := RenameFrameworks(next, k + 1).value;
          assert r[k] == next[k];
          assert forall j :: 0 <= j < k ==> r[j] == fs[j];
        }
      } else {
        assert !RenamableEntry(fs[k]);
      }
    }
  }

  /** The members of an object held in a well-formed object are well formed. */
  lemma EntriesWellFormed(ps: Props, f: nat)
    requires WellFormedProps(ps) && f < |ps| && ps[f].value.JObject?
    ensures forall j :: 0 <= j < |ps[f].value.props| ==> WellFormed(ps[f].value.props[j].value)
  {
    assert WellFormed(ps[f].value);
  }

  /** The root rename fails exactly when the root holds both names, when
      frameworks is absent or not an object, or when an entry of frameworks
      is not an object or holds both names; an absent frameworks is reported
      as such. */
  lemma RenameCompilationOptionsFails(root: Props)
    requires WellFormedProps(root)
    ensures RenameCompilationOptions(root).Ok? <==>
      && Renamable(root) && Has(root, "frameworks")
      && Get(root, "frameworks").value.JObject?
      && var fs := Get(root, "frameworks").value.props;
         forall j :: 0 <= j < |fs| ==> RenamableEntry(fs[j])
    ensures Renamable(root) && !Has(root, "frameworks") ==>
      RenameCompilationOptions(root) == Err(MissingFrameworks)
  {
    RenameCompilationSpec(root);
    if Renamable(root) {
      var r1 := RenameCompilation(root).value;
      if Has(root, "frameworks") {
        var f := IndexOf(root, "frameworks").value;
        assert r1[f] == root[f];
        IndexOfAt(r1, f);
        if root[f].value.JObject? {
          EntriesWellFormed(root, f);
          RenameFrameworksSpec(root[f].value.props, 0);
        }
      } else {
        assert !Has(r1, "frameworks") by {
          forall j | 0 <= j < |r1| ensures r1[j].name != "frameworks" {
            assert r1[j] == Renamed(root[j]);
          }
        }
      }
    }
  }

  /** Root compilationOptions becomes buildOptions at the same index with the
      same value, every frameworks entry is renamed the same way, and nothing
      else changes. */
  lemma RenameCompilationOptionsEffect(root: Props)
    requires WellFormedProps(root) && RenameCompilationOptions(root).Ok?
    ensures Has(root, "frameworks")
    ensures var r := RenameCompilationOptions(root).value;
      var f := IndexOf(root, "frameworks").value;
      && |r| == |root|
      && (forall j :: 0 <= j < |root| && j != f ==> r[j] == Renamed(root[j]))
      && r[f].name == "frameworks" && root[f].value.JObject? && r[f].value.JObject?
      && FrameworksRenamed(root[f].value.props, r[f].value.props)
  {
    RenameCompilationSpec(root);
    var r1 := RenameCompilation(root).value;
    var f := IndexOf(r1, "frameworks").value;
    assert root[f].name == "frameworks" by {
      assert r1[f] == Renamed(root[f]);
    }
    IndexOfAt(root, f);
    IndexOfAt(r1, f);
    var fs := r1[f].value.props;
    assert r1[f] == root[f];
    EntriesWellFormed(root, f);
    RenameFrameworksSpec(fs, 0);
    var fs' := RenameFrameworks(fs, 0).value;
    SetOrAppendAt(r1, f, JObject(fs'));

  }

  /** The frameworks loop keeps the tree well formed. */
  lemma {:induction false} RenameFrameworksWellFormed(fs: Props, k: nat)
    requires WellFormedProps(fs) && RenameFrameworks(fs, k).Ok?
    ensures WellFormedProps(RenameFrameworks(fs, k).value)
    decreases |fs| - k
  {
    if k < |fs| {
      var e := fs[k].value.props;
      assert WellFormed(fs[k].value);
      RenameCompilationWellFormed(e);
      var next := fs[k := Property(fs[k].name, JObject(RenameCompilation(e).value))];
      WellFormedReplaceAt(fs, k, next[k]);
      RenameFrameworksWellFormed(next, k + 1);
    }
  }

  lemma RenameCompilationOptionsWellFormed(root: Props)
    requires WellFormedProps(root) && RenameCompilationOptions(root).Ok?
    ensures WellFormedProps(RenameCompilationOptions(root).value)
  {
    RenameCompilationWellFormed(root);
    var r1 := RenameCompilation(root).value;
    var f := IndexOf(r1, "frameworks").value;
    assert WellFormed(r1[f].value);
    RenameFrameworksWellFormed(r1[f].value.props, 0);
    WellFormedSetOrAppend(r1, "frameworks", JObject(RenameFrameworks(r1[f].value.props, 0).value));
  }

  /** Apart from compilationOptions, buildOptions and frameworks, every name
      keeps its value. */
  lemma RenameCompilationOptionsLookup(root: Props, n: string)
    requires WellFormedProps(root) && RenameCompilationOptions(root).Ok?
    requires n != "compilationOptions" && n != "buildOptions" && n != "frameworks"
    ensures Get(RenameCompilationOptions(root).value, n) == Get(root, n)
  {
    RenameCompilationOptionsEffect(root);
    var r := RenameCompilationOptions(root).value;
    var f := IndexOf(root, "frameworks").value;
    if Has(root, n) {
      var j := IndexOf(root, n).value;
      assert r[j] == root[j];
      IndexOfFirst(r, n, j);
    } else {
      forall j | 0 <= j < |r| ensures r[j].name != n {
        if j != f { assert r[j] == Renamed(root[j]); }
      }
    }
  }

  /** After the rename, buildOptions holds what compilationOptions held, or
      what buildOptions held when there was no compilationOptions. */
  lemma RenameCompilationOptionsBuild(root: Props)
    requires WellFormedProps(root) && RenameCompilationOptions(root).Ok?
    ensures Get(RenameCompilationOptions(root).value, "buildOptions") ==
      if Has(root, "compilationOptions") then Get(root, "compilationOptions") else Get(root, "buildOptions")
  {
    RenameCompilationOptionsEffect(root);
    assert Unique(root);
    RenameCompilationSpec(root);
    var r := RenameCompilationOptions(root).value;
    var f := IndexOf(root, "frameworks").value;
    if Has(root, "compilationOptions") {
      var c := IndexOf(root, "compilationOptions").value;
      assert !Has(root, "buildOptions");
      forall j | 0 <= j < c ensures r[j].name != "buildOptions" {
        if j != f { assert r[j] == Renamed(root[j]); }
      }
      assert r[c] == Renamed(root[c]);
      IndexOfFirst(r, "buildOptions", c);
    } else if Has(root, "buildOptions") {
      var b := IndexOf(root, "buildOptions").value;
      forall j | 0 <= j < b ensures r[j].name != "buildOptions" {
        if j != f { assert r[j] == Renamed(root[j]); }
      }
      assert r[b] == root[b];
      IndexOfFirst(r, "buildOptions", b);
    } else {
      forall j | 0 <= j < |r| ensures r[j].name != "buildOptions" {
        if j != f { assert r[j] == Renamed(root[j]); }
      }
    }
  }

  // ---------------------------------------------------------------------------
  // MoveToPackOptions

  /** Moving one pack setting that the root holds fails exactly when
      packOptions is there but not an object, or already has that setting. */
  lemma MoveToPackOptionsFails(ps: Props, key: string)
    requires Has(ps, key) && key != "packOptions"
    ensures MoveToPackOptions(ps, key).Ok? <==>
      ObjectOrAbsent(ps, "packOptions") && !Has(ChildProps(ps, "packOptions"), key)
    ensures !ObjectOrAbsent(ps, "packOptions") ==>
      MoveToPackOptions(ps, key) == Err(NotAnObject("packOptions"))
    ensures ObjectOrAbsent(ps, "packOptions") && Has(ChildProps(ps, "packOptions"), key) ==>
      MoveToPackOptions(ps, key) == Err(DuplicateName(key))
  {
  }

  /** Afterwards the root no longer holds key, packOptions holds what it held
      before followed by key with its old value, and every other name keeps
      its value. */
  lemma MoveToPackOptionsLookup(ps: Props, key: string, n: string)
    requires WellFormedProps(ps) && key != "packOptions"
    requires MoveToPackOptions(ps, key).Ok?
    ensures Get(MoveToPackOptions(ps, key).value, n) ==
      if n == key then None
      else if n == "packOptions" && Has(ps, key)
      then Some(JObject(ChildProps(ps, "packOptions") + [Property(key, Get(ps, key).value)]))
      else Get(ps, n)
  {
    if Has(ps, key) {
      var i := IndexOf(ps, key).value;
      var pack := GetOrAdd(ps, "packOptions", Some(i)).value;
      GetOrAddWellFormed(ps, "packOptions", Some(i));
      GetOrAddLookup(ps, "packOptions", Some(i), n);
      GetOrAddLookup(ps, "packOptions", Some(i), key);
      var removed := RemoveAt(pack.parent, i);
      assert MoveToPackOptions(ps, key) == Ok(SetOrAppend(removed, "packOptions", JObject(pack.child + [ps[i]])));
      GetRemoveAt(pack.parent, i, n);
      GetSetOrAppend(removed, "packOptions", JObject(pack.child + [ps[i]]), n);
    }
  }

  /** A freshly created packOptions takes the index the setting had. */
  lemma MoveToPackOptionsFresh(ps: Props, key: string)
    requires Has(ps, key) && !Has(ps, "packOptions")
    ensures var i := IndexOf(ps, key).value;
      MoveToPackOptions(ps, key) == Ok(ps[i := Property("packOptions", JObject([ps[i]]))])
  {
    var i := IndexOf(ps, key).value;
    var p := Property("packOptions", JObject([]));
    var inserted := InsertAfter(ps, i, p);
    assert GetOrAdd(ps, "packOptions", Some(i)) == Ok(Split(inserted, []));
    var removed := RemoveAt(inserted, i);
    assert |removed| == |ps|;
    forall j | 0 <= j < |ps| ensures removed[j] == ps[i := p][j] {
      if j > i { assert removed[j] == inserted[j + 1]; }
      else if j == i { assert removed[j] == inserted[i + 1]; }
    }
    assert removed == ps[i := p];
    IndexOfFirst(removed, "packOptions", i);
    var empty: Props := [];
    assert !Has(empty, key);
    assert empty + [ps[i]] == [ps[i]];
    assert MoveToPackOptions(ps, key) == Ok(SetOrAppend(removed, "packOptions", JObject([ps[i]])));
    var q := Property("packOptions", JObject([ps[i]]));
    assert SetOrAppend(removed, "packOptions", JObject([ps[i]])) == removed[i := q];
    assert removed[i := q] == ps[i := q];
  }

  /** An existing packOptions stays where it is and gains the setting last;
      the setting leaves its index. */
  lemma MoveToPackOptionsExisting(ps: Props, key: string)
    requires WellFormedProps(ps) && Has(ps, key) && key != "packOptions"
    requires Has(ps, "packOptions") && Get(ps, "packOptions").value.JObject?
    requires !Has(ChildProps(ps, "packOptions"), key)
    ensures var i := IndexOf(ps, key).value;
      var k := IndexOf(ps, "packOptions").value;
      var pack := Property("packOptions", JObject(ChildProps(ps, "packOptions") + [ps[i]]));
      MoveToPackOptions(ps, key) == Ok(RemoveAt(ps[k := pack], i))
  {
    var i := IndexOf(ps, key).value;
    var k := IndexOf(ps, "packOptions").value;
    var pack := Property("packOptions", JObject(ChildProps(ps, "packOptions") + [ps[i]]));
    MoveToPackOptionsKept(ps, key);
    var removed := RemoveAt(ps, i);
    WellFormedRemoveAt(ps, i);
    var k' := if k < i then k else k - 1;
    assert removed[k'] == ps[k];
    SetOrAppendAt(removed, k', pack.value);
    RemoveThenReplace(ps, i, k, pack);
  }

  /** With packOptions already an object, the move appends to it after the
      setting has been removed. */
  lemma MoveToPackOptionsKept(ps: Props, key: string)
    requires Has(ps, key) && Has(ps, "packOptions") && Get(ps, "packOptions").value.JObject?
    requires !Has(ChildProps(ps, "packOptions"), key)
    ensures var i := IndexOf(ps, key).value;
      MoveToPackOptions(ps, key)
      == Ok(SetOrAppend(RemoveAt(ps, i), "packOptions", JObject(ChildProps(ps, "packOptions") + [ps[i]])))
  {
    var i := IndexOf(ps, key).value;
    assert GetOrAdd(ps, "packOptions", Some(i)) == Ok(Split(ps, ChildProps(ps, "packOptions")));
  }

  /** Replacing a property and then removing another one is the same as
      removing first and replacing at the shifted index. */
  lemma RemoveThenReplace(ps: Props, i: nat, k: nat, p: Property)
    requires i < |ps| && k < |ps| && i != k
    ensures RemoveAt(ps, i)[(if k < i then k else k - 1) := p] == RemoveAt(ps[k := p], i)
  {
    var r := RemoveAt(ps, i)[(if k < i then k else k - 1) := p];
    var expected := RemoveAt(ps[k := p], i);
    forall j | 0 <= j < |r| ensures r[j] == expected[j] {
      if j >= i { assert expected[j] == ps[k := p][j + 1]; }
    }
  }

  lemma MoveToPackOptionsWellFormed(ps: Props, key: string)
    requires WellFormedProps(ps) && MoveToPackOptions(ps, key).Ok?
    ensures WellFormedProps(MoveToPackOptions(ps, key).value)
  {
    if Has(ps, key) {
      var i := IndexOf(ps, key).value;
      var pack := GetOrAdd(ps, "packOptions", Some(i)).value;
      GetOrAddWellFormed(ps, "packOptions", Some(i));
      WellFormedRemoveAt(pack.parent, i);
      assert pack.parent[i] == ps[i];
      WellFormedAppend(pack.child, ps[i]);
      WellFormedSetOrAppend(RemoveAt(pack.parent, i), "packOptions", JObject(pack.child + [ps[i]]));
    }
  }

  /** The properties among keys that ps holds, in the order of keys. */
  function Present(ps: Props, keys: seq<string>): Props
    decreases |keys|
  {
    if keys == [] then []
    else (if Has(ps, keys[0]) then [Property(keys[0], Get(ps, keys[0]).value)] else [])
         + Present(ps, keys[1..])
  }

  predicate Distinct(keys: seq<string>) {
    forall i, j :: 0 <= i < j < |keys| ==> keys[i] != keys[j]
  }

  /** Present only looks at the names in keys. */
  lemma {:induction false} PresentSame(ps: Props, qs: Props, keys: seq<string>)
    requires forall j :: 0 <= j < |keys| ==> Get(ps, keys[j]) == Get(qs, keys[j])
    ensures Present(ps, keys) == Present(qs, keys)
    decreases |keys|
  {
    if keys != [] {
      assert Get(ps, keys[0]) == Get(qs, keys[0]);
      PresentSame(ps, qs, keys[1..]);
    }
  }

  /** Nothing among keys is present exactly when no key is held. */
  lemma {:induction false} PresentEmpty(ps: Props, keys: seq<string>)
    ensures Present(ps, keys) == [] <==> forall j :: 0 <= j < |keys| ==> !Has(ps, keys[j])
    decreases |keys|
  {
    if keys != [] {
      PresentEmpty(ps, keys[1..]);
      assert forall j :: 1 <= j < |keys| ==> keys[j] == keys[1..][j - 1];
    }
  }

  lemma {:induction false} MoveAllToPackOptionsWellFormed(ps: Props, keys: seq<string>)
    requires WellFormedProps(ps) && MoveAllToPackOptions(ps, keys).Ok?
    ensures WellFormedProps(MoveAllToPackOptions(ps, keys).value)
    decreases |keys|
  {
    if keys != [] {
      MoveToPackOptionsWellFormed(ps, keys[0]);
      MoveAllToPackOptionsWellFormed(MoveToPackOptions(ps, keys[0]).value, keys[1..]);
    }
  }

  /** One step of the pack-settings loop, as the inductions below use it. */
  lemma MoveAllToPackOptionsStep(ps: Props, keys: seq<string>)
    requires WellFormedProps(ps) && Distinct(keys) && "packOptions" !in keys && keys != []
    requires MoveToPackOptions(ps, keys[0]).Ok?
    ensures var r1 := MoveToPackOptions(ps, keys[0]).value;
      && WellFormedProps(r1) && Distinct(keys[1..]) && keys[0] !in keys[1..]
      && "packOptions" !in keys[1..]
      && Present(r1, keys[1..]) == Present(ps, keys[1..])
      && Get(r1, keys[0]).None?
      && (forall n :: n != keys[0] && n != "packOptions" ==> Get(r1, n) == Get(ps, n))
  {
    var k0 := keys[0];
    var rest := keys[1..];
    var r1 := MoveToPackOptions(ps, k0).value;
    MoveToPackOptionsWellFormed(ps, k0);
    assert forall j :: 0 <= j < |rest| ==> rest[j] == keys[j + 1];
    forall n | n != k0 && n != "packOptions" ensures Get(r1, n) == Get(ps, n) {
      MoveToPackOptionsLookup(ps, k0, n);
    }
    MoveToPackOptionsLookup(ps, k0, k0);
    forall j | 0 <= j < |rest| ensures Get(ps, rest[j]) == Get(r1, rest[j]) {
      assert rest[j] != k0 && rest[j] != "packOptions";
    }
    PresentSame(ps, r1, rest);
  }

  /** Appending the first present setting to packOptions and then the rest
      gives packOptions followed by all present settings. */
  lemma PresentAppend(ps: Props, pack: Props, keys: seq<string>)
    requires keys != [] && Has(ps, keys[0])
    ensures Present(ps, keys) != []
    ensures (pack + [Property(keys[0], Get(ps, keys[0]).value)]) + Present(ps, keys[1..])
         == pack + Present(ps, keys)
  {
    var p0 := Property(keys[0], Get(ps, keys[0]).value);
    assert Present(ps, keys) == [p0] + Present(ps, keys[1..]);
  }

  /** The step that moves a setting the root holds appends it to packOptions. */
  lemma MoveAllToPackOptionsStepPack(ps: Props, keys: seq<string>)
    requires WellFormedProps(ps) && keys != [] && Has(ps, keys[0]) && keys[0] != "packOptions"
    requires MoveToPackOptions(ps, keys[0]).Ok?
    ensures var r1 := MoveToPackOptions(ps, keys[0]).value;
      && Present(ps, keys) != []
      && Get(r1, "packOptions") == Some(JObject(ChildProps(r1, "packOptions")))
      && ChildProps(r1, "packOptions") + Present(ps, keys[1..])
         == ChildProps(ps, "packOptions") + Present(ps, keys)
  {
    MoveToPackOptionsLookup(ps, keys[0], "packOptions");
    PresentAppend(ps, ChildProps(ps, "packOptions"), keys);
  }

  /** Moving the pack settings in order: none of them is left in the root,
      packOptions holds its old properties followed by the settings the root
      held, in the order of keys, and every other name keeps its value. */
  lemma {:induction false} MoveAllToPackOptionsLookup(ps: Props, keys: seq<string>, n: string)
    requires WellFormedProps(ps) && Distinct(keys) && "packOptions" !in keys
    requires MoveAllToPackOptions(ps, keys).Ok?
    ensures Get(MoveAllToPackOptions(ps, keys).value, n) ==
      if n in keys then None
      else if n == "packOptions" && Present(ps, keys) != []
      then Some(JObject(ChildProps(ps, "packOptions") + Present(ps, keys)))
      else Get(ps, n)
    decreases |keys|
  {
    if keys != [] {
      var k0 := keys[0];
      var rest := keys[1..];
      var r1 := MoveToPackOptions(ps, k0).value;
      assert MoveAllToPackOptions(ps, keys) == MoveAllToPackOptions(r1, rest);
      MoveAllToPackOptionsStep(ps, keys);
      MoveAllToPackOptionsLookup(r1, rest, n);
      assert n in keys <==> n == k0 || n in rest;
      if n == "packOptions" {
        if Has(ps, k0) {
          MoveAllToPackOptionsStepPack(ps, keys);
          if Present(ps, rest) == [] {
            assert ChildProps(r1, "packOptions") + [] == ChildProps(r1, "packOptions");
          }
        } else {
          assert r1 == ps;
          assert Present(ps, keys) == Present(ps, rest);
        }
      }
    }
  }

  /** Moving the pack settings fails exactly when the root holds one of them
      while packOptions is not an object or already has that setting. */
  lemma {:induction false} MoveAllToPackOptionsFails(ps: Props, keys: seq<string>)
    requires WellFormedProps(ps) && Distinct(keys) && "packOptions" !in keys
    ensures MoveAllToPackOptions(ps, keys).Ok? <==> PackLoopSucceeds(ps, keys)
    decreases |keys|
  {
    if keys != [] {
      var k0 := keys[0];
      var rest := keys[1..];
      assert forall j :: 0 <= j < |rest| ==> rest[j] == keys[j + 1];
      assert Distinct(rest);
      if Has(ps, k0) {
        MoveToPackOptionsFails(ps, k0);
        if MoveToPackOptions(ps, k0).Ok? {
          var r1 := MoveToPackOptions(ps, k0).value;
          assert MoveAllToPackOptions(ps, keys) == MoveAllToPackOptions(r1, rest);
          MoveToPackOptionsWellFormed(ps, k0);
          MoveAllToPackOptionsFails(r1, rest);
          PackLoopSucceedsStep(ps, keys);
        } else {
          PresentEmpty(ps, keys);
        }
      } else {
        assert MoveToPackOptions(ps, k0) == Ok(ps);
        assert MoveAllToPackOptions(ps, keys) == MoveAllToPackOptions(ps, rest);
        MoveAllToPackOptionsFails(ps, rest);
        PresentEmpty(ps, keys);
        PresentEmpty(ps, rest);
      }
    } else {
      PresentEmpty(ps, keys);
    }
  }

  /** When the loop can run: no setting is there to move, or packOptions is
      absent or an object that holds none of the settings that are there. */
  predicate PackLoopSucceeds(ps: Props, keys: seq<string>) {
    || Present(ps, keys) == []
    || (&& ObjectOrAbsent(ps, "packOptions")
        && forall j :: 0 <= j < |keys| && Has(ps, keys[j]) ==> !Has(ChildProps(ps, "packOptions"), keys[j]))
  }

  /** After a first setting moved, the loop's condition on the rest of the
      settings is its condition on all of them. */
  lemma PackLoopSucceedsStep(ps: Props, keys: seq<string>)
    requires WellFormedProps(ps) && Distinct(keys) && "packOptions" !in keys && keys != []
    requires Has(ps, keys[0]) && MoveToPackOptions(ps, keys[0]).Ok?
    ensures PackLoopSucceeds(MoveToPackOptions(ps, keys[0]).value, keys[1..]) <==> PackLoopSucceeds(ps, keys)
  {
    var k0 := keys[0];
    var rest := keys[1..];
    var r1 := MoveToPackOptions(ps, k0).value;
    MoveAllToPackOptionsStep(ps, keys);
    MoveToPackOptionsFails(ps, k0);
    PresentEmpty(ps, keys);
    PresentEmpty(ps, rest);
    var p0 := Property(k0, Get(ps, k0).value);
    MoveToPackOptionsLookup(ps, k0, "packOptions");
    assert ChildProps(r1, "packOptions") == ChildProps(ps, "packOptions") + [p0];
    assert Get(r1, "packOptions").value.JObject?;
    var pack := ChildProps(ps, "packOptions");
    var pack1 := ChildProps(r1, "packOptions");
    forall j | 0 <= j < |rest|
      ensures rest[j] == keys[j + 1]
      ensures Has(r1, rest[j]) == Has(ps, rest[j])
      ensures Has(pack1, rest[j]) == Has(pack, rest[j])
    {
      assert rest[j] in rest;
      assert Get(r1, rest[j]) == Get(ps, rest[j]);
      GetAppend(pack, p0, rest[j]);
    }
    if PackLoopSucceeds(ps, keys) {
      forall j | 0 <= j < |rest| && Has(r1, rest[j]) ensures !Has(pack1, rest[j]) {
        assert Has(ps, keys[j + 1]);
      }
    }
    if PackLoopSucceeds(r1, rest) {
      forall j | 0 <= j < |keys| && Has(ps, keys[j]) ensures !Has(pack, keys[j]) {
        if j > 0 {
          assert keys[j] == rest[j - 1];
          assert Has(r1, rest[j - 1]);
        }
      }
    }
  }

  // ---------------------------------------------------------------------------
  // MovePackIncludeToPackOptions

  /** The mapping packInclude becomes: the value under packOptions.files.mappings. */
  function PackFiles(ps: Props): Props
    requires Has(ps, "packInclude")
  {
    var pack := ChildProps(ps, "packOptions");
    var filled := ChildProps(pack, "files") + [Property("mappings", Get(ps, "packInclude").value)];
    SetOrAppend(pack, "files", JObject(filled))
  }

  /** The rule, once it succeeds, in terms of PackFiles. */
  lemma MovePackIncludeResult(ps: Props)
    requires Has(ps, "packInclude") && MovePackIncludeToPackOptions(ps).Ok?
    ensures var i := IndexOf(ps, "packInclude").value;
      var pack := GetOrAdd(ps, "packOptions", Some(i)).value;
      var ps' := SetOrAppend(pack.parent, "packOptions", JObject(PackFiles(ps)));
      && i < |ps'| && ps'[i] == ps[i]
      && MovePackIncludeToPackOptions(ps) == Ok(RemoveAt(ps', i))
  {
    var i := IndexOf(ps, "packInclude").value;
    var pack := GetOrAdd(ps, "packOptions", Some(i)).value;
    GetOrAddChild(ps, "packOptions", Some(i));
    var files := GetOrAdd(pack.child, "files", None).value;
    GetOrAddChild(pack.child, "files", None);
    var filled := files.child + [Property("mappings", ps[i].value)];
    SetOrAppendAfterGetOrAdd(pack.child, "files", JObject(filled));
    assert SetOrAppend(files.parent, "files", JObject(filled)) == PackFiles(ps);
    assert pack.parent[i] == ps[i];
    GetOrAddLookup(ps, "packOptions", Some(i), "packOptions");
    assert IndexOf(pack.parent, "packOptions").value != i;
  }

  lemma MovePackIncludeWellFormed(ps: Props)
    requires WellFormedProps(ps) && MovePackIncludeToPackOptions(ps).Ok?
    ensures WellFormedProps(MovePackIncludeToPackOptions(ps).value)
    ensures Has(ps, "packInclude") ==>
      var i := IndexOf(ps, "packInclude").value;
      var pack := GetOrAdd(ps, "packOptions", Some(i)).value;
      WellFormedProps(SetOrAppend(pack.parent, "packOptions", JObject(PackFiles(ps))))
  {
    if Has(ps, "packInclude") {
      var i := IndexOf(ps, "packInclude").value;
      var pack := GetOrAdd(ps, "packOptions", Some(i)).value;
      GetOrAddWellFormed(ps, "packOptions", Some(i));
      GetOrAddChild(ps, "packOptions", Some(i));
      WellFormedGet(ps, "packInclude");
      var m := Property("mappings", ps[i].value);
      var files := ChildProps(pack.child, "files");
      WellFormedChild(pack.child, "files");
      WellFormedAppend(files, m);
      WellFormedSetOrAppend(pack.child, "files", JObject(files + [m]));
      assert SetOrAppend(pack.child, "files", JObject(files + [m])) == PackFiles(ps);
      var ps' := SetOrAppend(pack.parent, "packOptions", JObject(PackFiles(ps)));
      WellFormedSetOrAppend(pack.parent, "packOptions", JObject(PackFiles(ps)));
      MovePackIncludeResult(ps);
      WellFormedRemoveAt(ps', i);
    }
  }

  /** Afterwards packInclude is gone, its value is packOptions.files.mappings
      (both objects created when absent, and everything they held before
      kept), and every other name keeps its value. */
  lemma MovePackIncludeLookup(ps: Props, n: string)
    requires WellFormedProps(ps) && MovePackIncludeToPackOptions(ps).Ok?
    ensures Get(MovePackIncludeToPackOptions(ps).value, n) ==
      if n == "packInclude" then None
      else if n == "packOptions" && Has(ps, "packInclude") then Some(JObject(PackFiles(ps)))
      else Get(ps, n)
  {
    MovePackIncludeWellFormed(ps);
    if Has(ps, "packInclude") {
      MovePackIncludeResult(ps);
      var i := IndexOf(ps, "packInclude").value;
      var pack := GetOrAdd(ps, "packOptions", Some(i)).value;
      var ps' := SetOrAppend(pack.parent, "packOptions", JObject(PackFiles(ps)));
      GetRemoveAt(ps', i, n);
      GetSetOrAppend(pack.parent, "packOptions", JObject(PackFiles(ps)), n);
      GetOrAddLookup(ps, "packOptions", Some(i), n);
    }
  }

  /** With packInclude present the rule fails exactly when packOptions or
      packOptions.files is there but not an object, or files already has
      mappings. */
  lemma MovePackIncludeFails(ps: Props)
    requires Has(ps, "packInclude")
    ensures var pack := ChildProps(ps, "packOptions");
      && (MovePackIncludeToPackOptions(ps).Ok? <==>
            && ObjectOrAbsent(ps, "packOptions") && ObjectOrAbsent(pack, "files")
            && !Has(ChildProps(pack, "files"), "mappings"))
      && (!ObjectOrAbsent(ps, "packOptions") ==>
            MovePackIncludeToPackOptions(ps) == Err(NotAnObject("packOptions")))
      && (ObjectOrAbsent(ps, "packOptions") && !ObjectOrAbsent(pack, "files") ==>
            MovePackIncludeToPackOptions(ps) == Err(NotAnObject("files")))
      && (ObjectOrAbsent(ps, "packOptions") && ObjectOrAbsent(pack, "files")
          && Has(ChildProps(pack, "files"), "mappings") ==>
            MovePackIncludeToPackOptions(ps) == Err(DuplicateName("mappings")))
  {
    var i := IndexOf(ps, "packInclude").value;
    if ObjectOrAbsent(ps, "packOptions") {
      GetOrAddChild(ps, "packOptions", Some(i));
      var pack := GetOrAdd(ps, "packOptions", Some(i)).value;
      if ObjectOrAbsent(pack.child, "files") {
        GetOrAddChild(pack.child, "files", None);
      }
    }
  }

  /** Without packOptions, packInclude is replaced in place by
      packOptions: { files: { mappings: its value } }. */
  lemma MovePackIncludeFresh(ps: Props)
    requires WellFormedProps(ps) && Has(ps, "packInclude") && !Has(ps, "packOptions")
    ensures var i := IndexOf(ps, "packInclude").value;
      var files := Property("files", JObject([Property("mappings", ps[i].value)]));
      MovePackIncludeToPackOptions(ps) == Ok(ps[i := Property("packOptions", JObject([files]))])
  {
    var i := IndexOf(ps, "packInclude").value;
    var files := Property("files", JObject([Property("mappings", ps[i].value)]));
    var empty: Props := [];
    assert ChildProps(ps, "packOptions") == empty;
    assert !Has(empty, "files") && !Has(empty, "mappings");
    assert MovePackIncludeToPackOptions(ps).Ok? by {
      MovePackIncludeFails(ps);
    }
    MovePackIncludeResult(ps);
    assert ChildProps(empty, "files") + [Property("mappings", ps[i].value)] == [Property("mappings", ps[i].value)];
    assert PackFiles(ps) == [files];
    var p := Property("packOptions", JObject([]));
    var inserted := InsertAfter(ps, i, p);
    assert GetOrAdd(ps, "packOptions", Some(i)).value.parent == inserted;
    IndexOfFirst(inserted, "packOptions", i + 1);
    var q := Property("packOptions", JObject([files]));
    InsertAfterThenReplace(ps, i, p, q);
    InsertRemove(ps, i, q);
  }

  /** With packOptions already an object, it is rewritten where it stands,
      with files.mappings added to what it held, and packInclude leaves the
      root. */
  lemma MovePackIncludeExisting(ps: Props)
    requires Has(ps, "packInclude") && Has(ps, "packOptions")
    requires MovePackIncludeToPackOptions(ps).Ok?
    ensures var i := IndexOf(ps, "packInclude").value;
      var k := IndexOf(ps, "packOptions").value;
      MovePackIncludeToPackOptions(ps) == Ok(RemoveAt(ps[k := Property("packOptions", JObject(PackFiles(ps)))], i))
  {
    var i := IndexOf(ps, "packInclude").value;
    assert ObjectOrAbsent(ps, "packOptions") by { MovePackIncludeFails(ps); }
    MovePackIncludeResult(ps);
    StoreAnchored(ps, i, "packOptions", JObject(PackFiles(ps)));
  }

  // ---------------------------------------------------------------------------
  // MoveContent

  /** publishOptions once dest holds v. */
  function PublishedProps(ps: Props, dest: string, v: Json): Props {
    SetOrAppend(ChildProps(ps, "publishOptions"), dest, v)
  }

  /** buildOptions once copyToOutput.dest holds v. */
  function CopiedProps(ps: Props, dest: string, v: Json): Props {
    var build := ChildProps(ps, "buildOptions");
    SetOrAppend(build, "copyToOutput", JObject(SetOrAppend(ChildProps(build, "copyToOutput"), dest, v)))
  }

  /** The intermediate root after publishOptions has been written back. */
  function Published(ps: Props, i: nat, dest: string): Props
    requires i < |ps| && GetOrAdd(ps, "publishOptions", Some(i)).Ok?
  {
    var publish := GetOrAdd(ps, "publishOptions", Some(i)).value;
    SetOrAppend(publish.parent, "publishOptions", JObject(PublishedProps(ps, dest, ps[i].value)))
  }

  /** The first write-back stores publishOptions and touches nothing else;
      the setting stays at its index. */
  lemma PublishedLookup(ps: Props, i: nat, dest: string, n: string)
    requires i < |ps| && ps[i].name != "publishOptions"
    requires GetOrAdd(ps, "publishOptions", Some(i)).Ok?
    ensures |Published(ps, i, dest)| >= |ps| && Published(ps, i, dest)[i] == ps[i]
    ensures Get(Published(ps, i, dest), n) ==
      if n == "publishOptions" then Some(JObject(PublishedProps(ps, dest, ps[i].value))) else Get(ps, n)
  {
    var publish := GetOrAdd(ps, "publishOptions", Some(i)).value;
    GetOrAddChild(ps, "publishOptions", Some(i));
    GetOrAddLookup(ps, "publishOptions", Some(i), n);
    GetOrAddLookup(ps, "publishOptions", Some(i), "publishOptions");
    GetSetOrAppend(publish.parent, "publishOptions", JObject(PublishedProps(ps, dest, ps[i].value)), n);
    assert IndexOf(publish.parent, "publishOptions").value != i;
  }

  lemma PublishedWellFormed(ps: Props, i: nat, dest: string)
    requires WellFormedProps(ps) && i < |ps|
    requires GetOrAdd(ps, "publishOptions", Some(i)).Ok?
    ensures WellFormedProps(Published(ps, i, dest))
  {
    GetOrAddWellFormed(ps, "publishOptions", Some(i));
    GetOrAddChild(ps, "publishOptions", Some(i));
    WellFormedChild(ps, "publishOptions");
    assert WellFormed(ps[i].value);
    WellFormedSetOrAppend(ChildProps(ps, "publishOptions"), dest, ps[i].value);
    var publish := GetOrAdd(ps, "publishOptions", Some(i)).value;
    WellFormedSetOrAppend(publish.parent, "publishOptions", JObject(PublishedProps(ps, dest, ps[i].value)));
  }

  /** The rule, once it succeeds, in terms of PublishedProps and CopiedProps. */
  lemma MoveContentItemResult(ps: Props, src: string, dest: string)
    requires Has(ps, src) && src != "publishOptions" && src != "buildOptions"
    requires MoveContentItem(ps, src, dest).Ok?
    ensures var i := IndexOf(ps, src).value;
      var ps1 := Published(ps, i, dest);
      && i < |ps1| && GetOrAdd(ps1, "buildOptions", Some(i)).Ok?
      && var build := GetOrAdd(ps1, "buildOptions", Some(i)).value;
      var ps2 := SetOrAppend(build.parent, "buildOptions", JObject(CopiedProps(ps, dest, ps[i].value)));
      && i < |ps2| && ps2[i] == ps[i]
      && MoveContentItem(ps, src, dest) == Ok(RemoveAt(ps2, i))
  {
    var i := IndexOf(ps, src).value;
    var v := ps[i].value;
    var ps1 := Published(ps, i, dest);
    PublishedLookup(ps, i, dest, "buildOptions");
    PublishedLookup(ps, i, dest, "publishOptions");
    var build := GetOrAdd(ps1, "buildOptions", Some(i)).value;
    GetOrAddChild(ps1, "buildOptions", Some(i));
    assert build.child == ChildProps(ps, "buildOptions");
    var copy := GetOrAdd(build.child, "copyToOutput", None).value;
    GetOrAddChild(build.child, "copyToOutput", None);
    var filled := JObject(SetOrAppend(copy.child, dest, v));
    SetOrAppendAfterGetOrAdd(build.child, "copyToOutput", filled);
    assert SetOrAppend(copy.parent, "copyToOutput", filled) == CopiedProps(ps, dest, v);
    GetOrAddLookup(ps1, "buildOptions", Some(i), "buildOptions");
    assert IndexOf(build.parent, "buildOptions").value != i;
  }

  lemma MoveContentItemWellFormed(ps: Props, src: string, dest: string)
    requires WellFormedProps(ps) && src != "publishOptions" && src != "buildOptions"
    requires MoveContentItem(ps, src, dest).Ok?
    ensures WellFormedProps(MoveContentItem(ps, src, dest).value)
    ensures Has(ps, src) ==>
      var i := IndexOf(ps, src).value;
      var build := GetOrAdd(Published(ps, i, dest), "buildOptions", Some(i)).value;
      WellFormedProps(SetOrAppend(build.parent, "buildOptions", JObject(CopiedProps(ps, dest, ps[i].value))))
  {
    if Has(ps, src) {
      var i := IndexOf(ps, src).value;
      var v := ps[i].value;
      MoveContentItemResult(ps, src, dest);
      var ps1 := Published(ps, i, dest);
      PublishedWellFormed(ps, i, dest);
      GetOrAddWellFormed(ps1, "buildOptions", Some(i));
      var build := GetOrAdd(ps1, "buildOptions", Some(i)).value;
      assert WellFormed(v);
      WellFormedChild(ps, "buildOptions");
      var b := ChildProps(ps, "buildOptions");
      WellFormedChild(b, "copyToOutput");
      WellFormedSetOrAppend(ChildProps(b, "copyToOutput"), dest, v);
      WellFormedSetOrAppend(b, "copyToOutput", JObject(SetOrAppend(ChildProps(b, "copyToOutput"), dest, v)));
      var ps2 := SetOrAppend(build.parent, "buildOptions", JObject(CopiedProps(ps, dest, v)));
      WellFormedSetOrAppend(build.parent, "buildOptions", JObject(CopiedProps(ps, dest, v)));
      WellFormedRemoveAt(ps2, i);
    }
  }

  /** Afterwards the content setting is gone, its value is publishOptions.dest
      and buildOptions.copyToOutput.dest (each object created when absent,
      everything it held before kept), and every other name keeps its value. */
  lemma MoveContentItemLookup(ps: Props, src: string, dest: string, n: string)
    requires WellFormedProps(ps) && src != "publishOptions" && src != "buildOptions"
    requires MoveContentItem(ps, src, dest).Ok?
    ensures Get(MoveContentItem(ps, src, dest).value, n) ==
      if !Has(ps, src) then Get(ps, n)
      else if n == src then None
      else if n == "publishOptions" then Some(JObject(PublishedProps(ps, dest, Get(ps, src).value)))
      else if n == "buildOptions" then Some(JObject(CopiedProps(ps, dest, Get(ps, src).value)))
      else Get(ps, n)
  {
    if Has(ps, src) {
      var i := IndexOf(ps, src).value;
      var v := ps[i].value;
      MoveContentItemResult(ps, src, dest);
      MoveContentItemWellFormed(ps, src, dest);
      var ps1 := Published(ps, i, dest);
      var build := GetOrAdd(ps1, "buildOptions", Some(i)).value;
      var ps2 := SetOrAppend(build.parent, "buildOptions", JObject(CopiedProps(ps, dest, v)));
      GetRemoveAt(ps2, i, n);
      GetSetOrAppend(build.parent, "buildOptions", JObject(CopiedProps(ps, dest, v)), n);
      GetOrAddLookup(ps1, "buildOptions", Some(i), n);
      PublishedLookup(ps, i, dest, n);
    }
  }

  /** With the content setting present the rule fails exactly when
      publishOptions, buildOptions or buildOptions.copyToOutput is there but
      not an object. */
  lemma MoveContentItemFails(ps: Props, src: string, dest: string)
    requires Has(ps, src) && src != "publishOptions" && src != "buildOptions"
    ensures var build := ChildProps(ps, "buildOptions");
      && (MoveContentItem(ps, src, dest).Ok? <==>
            && ObjectOrAbsent(ps, "publishOptions") && ObjectOrAbsent(ps, "buildOptions")
            && ObjectOrAbsent(build, "copyToOutput"))
      && (!ObjectOrAbsent(ps, "publishOptions") ==>
            MoveContentItem(ps, src, dest) == Err(NotAnObject("publishOptions")))
      && (ObjectOrAbsent(ps, "publishOptions") && !ObjectOrAbsent(ps, "buildOptions") ==>
            MoveContentItem(ps, src, dest) == Err(NotAnObject("buildOptions")))
      && (ObjectOrAbsent(ps, "publishOptions") && ObjectOrAbsent(ps, "buildOptions")
          && !ObjectOrAbsent(build, "copyToOutput") ==>
            MoveContentItem(ps, src, dest) == Err(NotAnObject("copyToOutput")))
  {
    var i := IndexOf(ps, src).value;
    if ObjectOrAbsent(ps, "publishOptions") {
      var ps1 := Published(ps, i, dest);
      PublishedLookup(ps, i, dest, "buildOptions");
      GetOrAddChild(ps, "publishOptions", Some(i));
      var publish := GetOrAdd(ps, "publishOptions", Some(i)).value;
      assert SetOrAppend(publish.parent, "publishOptions",
                         JObject(SetOrAppend(publish.child, dest, ps[i].value))) == ps1;
      if ObjectOrAbsent(ps, "buildOptions") {
        GetOrAddChild(ps1, "buildOptions", Some(i));
        assert GetOrAdd(ps1, "buildOptions", Some(i)).value.child == ChildProps(ps, "buildOptions");
      } else {
        assert GetOrAdd(ps1, "buildOptions", Some(i)) == Err(NotAnObject("buildOptions"));
      }
    } else {
      assert GetOrAdd(ps, "publishOptions", Some(i)) == Err(NotAnObject("publishOptions"));
    }
  }

  /** Replacing what was just inserted is inserting the replacement. */
  lemma InsertAfterThenReplace(ps: Props, i: nat, p: Property, q: Property)
    requires i < |ps|
    ensures InsertAfter(ps, i, p)[i + 1 := q] == InsertAfter(ps, i, q)
  {
    assert InsertAfter(ps, i, p)[i + 1 := q] == ps[..i + 1] + [q] + ps[i + 1..];
  }

  /** Two insertions after i, then removing i: the later insertion comes first. */
  lemma InsertTwiceRemove(ps: Props, i: nat, p: Property, q: Property)
    requires i < |ps|
    ensures RemoveAt(InsertAfter(InsertAfter(ps, i, p), i, q), i) == ps[..i] + [q, p] + ps[i + 1..]
  {
    var ps1 := InsertAfter(ps, i, p);
    assert ps1[..i + 1] == ps[..i + 1];
    assert ps1[i + 1..] == [p] + ps[i + 1..];
    var ps2 := InsertAfter(ps1, i, q);
    assert ps2 == ps[..i + 1] + [q] + ([p] + ps[i + 1..]);
    assert ps2[..i] == ps[..i];
    assert ps2[i + 1..] == [q, p] + ps[i + 1..];
  }

  /** A fresh publishOptions is inserted right after the setting. */
  lemma PublishedFresh(ps: Props, i: nat, dest: string)
    requires i < |ps| && !Has(ps, "publishOptions")
    ensures Published(ps, i, dest)
         == InsertAfter(ps, i, Property("publishOptions", JObject([Property(dest, ps[i].value)])))
  {
    var v := ps[i].value;
    var empty: Props := [];
    var a := InsertAfter(ps, i, Property("publishOptions", JObject([])));
    assert GetOrAdd(ps, "publishOptions", Some(i)).value.parent == a;
    IndexOfFirst(a, "publishOptions", i + 1);
    assert ChildProps(ps, "publishOptions") == empty;
    assert PublishedProps(ps, dest, v) == [Property(dest, v)];
    InsertAfterThenReplace(ps, i, Property("publishOptions", JObject([])),
      Property("publishOptions", JObject([Property(dest, v)])));
  }

  /** A fresh buildOptions is inserted right after the setting. */
  lemma CopiedFresh(ps: Props, ps1: Props, i: nat, dest: string, v: Json)
    requires i < |ps1| && !Has(ps1, "buildOptions") && !Has(ps, "buildOptions")
    ensures var build := GetOrAdd(ps1, "buildOptions", Some(i)).value;
      SetOrAppend(build.parent, "buildOptions", JObject(CopiedProps(ps, dest, v)))
      == InsertAfter(ps1, i, Property("buildOptions",
           JObject([Property("copyToOutput", JObject([Property(dest, v)]))])))
  {
    var empty: Props := [];
    var b := InsertAfter(ps1, i, Property("buildOptions", JObject([])));
    assert GetOrAdd(ps1, "buildOptions", Some(i)).value.parent == b;
    IndexOfFirst(b, "buildOptions", i + 1);
    assert ChildProps(ps, "buildOptions") == empty;
    assert !Has(empty, "copyToOutput") && !Has(empty, dest);
    assert CopiedProps(ps, dest, v) == [Property("copyToOutput", JObject([Property(dest, v)]))];
    InsertAfterThenReplace(ps1, i, Property("buildOptions", JObject([])),
      Property("buildOptions", JObject([Property("copyToOutput", JObject([Property(dest, v)]))])));
  }

  /** Without publishOptions and buildOptions, both are created right after
      the content setting, each inserted immediately after it, so buildOptions
      ends up first and publishOptions second, in the setting's place. */
  lemma MoveContentItemFresh(ps: Props, src: string, dest: string)
    requires Has(ps, src) && src != "publishOptions" && src != "buildOptions"
    requires !Has(ps, "publishOptions") && !Has(ps, "buildOptions")
    ensures var i := IndexOf(ps, src).value;
      var v := ps[i].value;
      var build := Property("buildOptions", JObject([Property("copyToOutput", JObject([Property(dest, v)]))]));
      var publish := Property("publishOptions", JObject([Property(dest, v)]));
      MoveContentItem(ps, src, dest) == Ok(ps[..i] + [build, publish] + ps[i + 1..])
  {
    var i := IndexOf(ps, src).value;
    var v := ps[i].value;
    var build := Property("buildOptions", JObject([Property("copyToOutput", JObject([Property(dest, v)]))]));
    var publish := Property("publishOptions", JObject([Property(dest, v)]));
    var ps1 := Published(ps, i, dest);
    PublishedLookup(ps, i, dest, "buildOptions");
    assert ps1 == InsertAfter(ps, i, publish) by { PublishedFresh(ps, i, dest); }
    var ps2 := SetOrAppend(GetOrAdd(ps1, "buildOptions", Some(i)).value.parent, "buildOptions",
                           JObject(CopiedProps(ps, dest, v)));
    assert ps2 == InsertAfter(ps1, i, build) by { CopiedFresh(ps, ps1, i, dest, v); }
    assert MoveContentItem(ps, src, dest) == Ok(RemoveAt(ps2, i)) by {
      MoveContentItemFails(ps, src, dest);
      MoveContentItemResult(ps, src, dest);
    }
    InsertTwiceRemove(ps, i, publish, build);
  }

  /** With publishOptions and buildOptions both already objects, each is
      rewritten where it stands and the content setting leaves the root. */
  lemma MoveContentItemExisting(ps: Props, src: string, dest: string)
    requires Has(ps, src) && src != "publishOptions" && src != "buildOptions"
    requires Has(ps, "publishOptions") && Has(ps, "buildOptions")
    requires MoveContentItem(ps, src, dest).Ok?
    ensures var i := IndexOf(ps, src).value;
      var v := ps[i].value;
      var p := IndexOf(ps, "publishOptions").value;
      var b := IndexOf(ps, "buildOptions").value;
      var publish := Property("publishOptions", JObject(PublishedProps(ps, dest, v)));
      var build := Property("buildOptions", JObject(CopiedProps(ps, dest, v)));
      MoveContentItem(ps, src, dest) == Ok(RemoveAt(ps[p := publish][b := build], i))
  {
    var i := IndexOf(ps, src).value;
    var v := ps[i].value;
    var p := IndexOf(ps, "publishOptions").value;
    var b := IndexOf(ps, "buildOptions").value;
    var publish := Property("publishOptions", JObject(PublishedProps(ps, dest, v)));
    var build := Property("buildOptions", JObject(CopiedProps(ps, dest, v)));
    assert ObjectOrAbsent(ps, "publishOptions") && ObjectOrAbsent(ps, "buildOptions") by {
      MoveContentItemFails(ps, src, dest);
    }
    var ps1 := Published(ps, i, dest);
    assert ps1 == ps[p := publish] by {
      StoreAnchored(ps, i, "publishOptions", JObject(PublishedProps(ps, dest, v)));
    }
    PublishedLookup(ps, i, dest, "buildOptions");
    IndexOfReplace(ps, p, publish, "buildOptions");
    var ps2 := SetOrAppend(GetOrAdd(ps1, "buildOptions", Some(i)).value.parent, "buildOptions",
                           JObject(CopiedProps(ps, dest, v)));
    assert ps2 == ps1[b := build] by {
      StoreAnchored(ps1, i, "buildOptions", JObject(CopiedProps(ps, dest, v)));
    }
    assert MoveContentItem(ps, src, dest) == Ok(RemoveAt(ps2, i)) by {
      MoveContentItemResult(ps, src, dest);
    }
  }

  /** With publishOptions already an object and no buildOptions, the
      publishOptions object is rewritten where it stands and the new
      buildOptions takes the content setting's place. */
  lemma MoveContentItemNewBuild(ps: Props, src: string, dest: string)
    requires Has(ps, src) && src != "publishOptions" && src != "buildOptions"
    requires Has(ps, "publishOptions") && !Has(ps, "buildOptions")
    requires MoveContentItem(ps, src, dest).Ok?
    ensures var i := IndexOf(ps, src).value;
      var v := ps[i].value;
      var p := IndexOf(ps, "publishOptions").value;
      var publish := Property("publishOptions", JObject(PublishedProps(ps, dest, v)));
      var build := Property("buildOptions", JObject(CopiedProps(ps, dest, v)));
      MoveContentItem(ps, src, dest) == Ok(ps[p := publish][i := build])
  {
    var i := IndexOf(ps, src).value;
    var v := ps[i].value;
    var p := IndexOf(ps, "publishOptions").value;
    var publish := Property("publishOptions", JObject(PublishedProps(ps, dest, v)));
    var build := Property("buildOptions", JObject(CopiedProps(ps, dest, v)));
    assert ObjectOrAbsent(ps, "publishOptions") by {
      MoveContentItemFails(ps, src, dest);
    }
    var ps1 := Published(ps, i, dest);
    assert ps1 == ps[p := publish] by {
      StoreAnchored(ps, i, "publishOptions", JObject(PublishedProps(ps, dest, v)));
    }
    PublishedLookup(ps, i, dest, "buildOptions");
    var ps2 := SetOrAppend(GetOrAdd(ps1, "buildOptions", Some(i)).value.parent, "buildOptions",
                           JObject(CopiedProps(ps, dest, v)));
    assert ps2 == InsertAfter(ps1, i, build) by {
      StoreAnchored(ps1, i, "buildOptions", JObject(CopiedProps(ps, dest, v)));
    }
    assert MoveContentItem(ps, src, dest) == Ok(RemoveAt(ps2, i)) by {
      MoveContentItemResult(ps, src, dest);
    }
    InsertRemove(ps1, i, build);
  }

  /** With buildOptions already an object and no publishOptions, the new
      publishOptions takes the content setting's place and the buildOptions
      object is rewritten where it stands. */
  lemma MoveContentItemNewPublish(ps: Props, src: string, dest: string)
    requires Has(ps, src) && src != "publishOptions" && src != "buildOptions"
    requires !Has(ps, "publishOptions") && Has(ps, "buildOptions")
    requires MoveContentItem(ps, src, dest).Ok?
    ensures var i := IndexOf(ps, src).value;
      var v := ps[i].value;
      var b := IndexOf(ps, "buildOptions").value;
      var publish := Property("publishOptions", JObject(PublishedProps(ps, dest, v)));
      var build := Property("buildOptions", JObject(CopiedProps(ps, dest, v)));
      MoveContentItem(ps, src, dest) == Ok(ps[i := publish][b := build])
  {
    var i := IndexOf(ps, src).value;
    var v := ps[i].value;
    var b := IndexOf(ps, "buildOptions").value;
    var publish := Property("publishOptions", JObject(PublishedProps(ps, dest, v)));
    var build := Property("buildOptions", JObject(CopiedProps(ps, dest, v)));
    var b': nat := if b <= i then b else b + 1;
    IndexOfInsertAfter(ps, i, publish, "buildOptions", b);
    assert IndexOf(InsertAfter(ps, i, publish), "buildOptions") == Some(b');
    assert ObjectOrAbsent(ps, "buildOptions") by {
      MoveContentItemFails(ps, src, dest);
    }
    var ps1 := Published(ps, i, dest);
    assert ps1 == InsertAfter(ps, i, publish) by {
      StoreAnchored(ps, i, "publishOptions", JObject(PublishedProps(ps, dest, v)));
    }
    PublishedLookup(ps, i, dest, "buildOptions");
    var ps2 := SetOrAppend(GetOrAdd(ps1, "buildOptions", Some(i)).value.parent, "buildOptions",
                           JObject(CopiedProps(ps, dest, v)));
    assert ps2 == ps1[b' := build] by {
      assert Has(ps1, "buildOptions");
      StoreAnchored(ps1, i, "buildOptions", JObject(CopiedProps(ps, dest, v)));
    }
    assert MoveContentItem(ps, src, dest) == Ok(RemoveAt(ps2, i)) by {
      MoveContentItemResult(ps, src, dest);
    }
    assert b != i;
    RemoveInsertedReplace(ps, i, publish, b, build);
  }

  // ---------------------------------------------------------------------------
  // MoveResourcesToBuild

  /** buildOptions once embed.dest holds v; a value already there is
      overwritten. */
  function EmbeddedProps(ps: Props, dest: string, v: Json): Props {
    var build := ChildProps(ps, "buildOptions");
    SetOrAppend(build, "embed", JObject(SetOrAppend(ChildProps(build, "embed"), dest, v)))
  }

  /** The rule, once it succeeds, in terms of EmbeddedProps. */
  lemma MoveResourceItemResult(ps: Props, src: string, dest: string)
    requires Has(ps, src) && src != "buildOptions"
    requires MoveResourceItem(ps, src, dest).Ok?
    ensures var i := IndexOf(ps, src).value;
      var build := GetOrAdd(ps, "buildOptions", Some(i)).value;
      var ps1 := SetOrAppend(build.parent, "buildOptions", JObject(EmbeddedProps(ps, dest, ps[i].value)));
      && i < |ps1| && ps1[i] == ps[i]
      && MoveResourceItem(ps, src, dest) == Ok(RemoveAt(ps1, i))
  {
    var i := IndexOf(ps, src).value;
    var v := ps[i].value;
    var build := GetOrAdd(ps, "buildOptions", Some(i)).value;
    GetOrAddChild(ps, "buildOptions", Some(i));
    var embed := GetOrAdd(build.child, "embed", None).value;
    GetOrAddChild(build.child, "embed", None);
    var filled := JObject(SetOrAppend(embed.child, dest, v));
    SetOrAppendAfterGetOrAdd(build.child, "embed", filled);
    assert SetOrAppend(embed.parent, "embed", filled) == EmbeddedProps(ps, dest, v);
    GetOrAddLookup(ps, "buildOptions", Some(i), "buildOptions");
    assert IndexOf(build.parent, "buildOptions").value != i;
  }

  lemma MoveResourceItemWellFormed(ps: Props, src: string, dest: string)
    requires WellFormedProps(ps) && src != "buildOptions"
    requires MoveResourceItem(ps, src, dest).Ok?
    ensures WellFormedProps(MoveResourceItem(ps, src, dest).value)
    ensures Has(ps, src) ==>
      var i := IndexOf(ps, src).value;
      var build := GetOrAdd(ps, "buildOptions", Some(i)).value;
      WellFormedProps(SetOrAppend(build.parent, "buildOptions", JObject(EmbeddedProps(ps, dest, ps[i].value))))
  {
    if Has(ps, src) {
      var i := IndexOf(ps, src).value;
      var v := ps[i].value;
      MoveResourceItemResult(ps, src, dest);
      GetOrAddWellFormed(ps, "buildOptions", Some(i));
      var build := GetOrAdd(ps, "buildOptions", Some(i)).value;
      assert WellFormed(v);
      WellFormedChild(ps, "buildOptions");
      var b := ChildProps(ps, "buildOptions");
      WellFormedChild(b, "embed");
      WellFormedSetOrAppend(ChildProps(b, "embed"), dest, v);
      WellFormedSetOrAppend(b, "embed", JObject(SetOrAppend(ChildProps(b, "embed"), dest, v)));
      var ps1 := SetOrAppend(build.parent, "buildOptions", JObject(EmbeddedProps(ps, dest, v)));
      WellFormedSetOrAppend(build.parent, "buildOptions", JObject(EmbeddedProps(ps, dest, v)));
      WellFormedRemoveAt(ps1, i);
    }
  }

  /** Afterwards the resource setting is gone, its value is
      buildOptions.embed.dest (both objects created when absent, everything
      else they held kept), and every other name keeps its value. */
  lemma MoveResourceItemLookup(ps: Props, src: string, dest: string, n: string)
    requires WellFormedProps(ps) && src != "buildOptions"
    requires MoveResourceItem(ps, src, dest).Ok?
    ensures Get(MoveResourceItem(ps, src, dest).value, n) ==
      if !Has(ps, src) then Get(ps, n)
      else if n == src then None
      else if n == "buildOptions" then Some(JObject(EmbeddedProps(ps, dest, Get(ps, src).value)))
      else Get(ps, n)
  {
    if Has(ps, src) {
      var i := IndexOf(ps, src).value;
      var v := ps[i].value;
      MoveResourceItemResult(ps, src, dest);
      MoveResourceItemWellFormed(ps, src, dest);
      var build := GetOrAdd(ps, "buildOptions", Some(i)).value;
      var ps1 := SetOrAppend(build.parent, "buildOptions", JObject(EmbeddedProps(ps, dest, v)));
      GetRemoveAt(ps1, i, n);
      GetSetOrAppend(build.parent, "buildOptions", JObject(EmbeddedProps(ps, dest, v)), n);
      GetOrAddLookup(ps, "buildOptions", Some(i), n);
    }
  }

  /** With the resource setting present the rule fails exactly when
      buildOptions or buildOptions.embed is there but not an object. */
  lemma MoveResourceItemFails(ps: Props, src: string, dest: string)
    requires Has(ps, src) && src != "buildOptions"
    ensures var build := ChildProps(ps, "buildOptions");
      && (MoveResourceItem(ps, src, dest).Ok? <==>
            ObjectOrAbsent(ps, "buildOptions") && ObjectOrAbsent(build, "embed"))
      && (!ObjectOrAbsent(ps, "buildOptions") ==>
            MoveResourceItem(ps, src, dest) == Err(NotAnObject("buildOptions")))
      && (ObjectOrAbsent(ps, "buildOptions") && !ObjectOrAbsent(build, "embed") ==>
            MoveResourceItem(ps, src, dest) == Err(NotAnObject("embed")))
  {
    var i := IndexOf(ps, src).value;
    if ObjectOrAbsent(ps, "buildOptions") {
      GetOrAddChild(ps, "buildOptions", Some(i));
    }
  }

  /** Without buildOptions, the resource setting is replaced in place by
      buildOptions: { embed: { dest: its value } }. */
  lemma MoveResourceItemFresh(ps: Props, src: string, dest: string)
    requires Has(ps, src) && src != "buildOptions" && !Has(ps, "buildOptions")
    ensures var i := IndexOf(ps, src).value;
      var embed := Property("embed", JObject([Property(dest, ps[i].value)]));
      MoveResourceItem(ps, src, dest) == Ok(ps[i := Property("buildOptions", JObject([embed]))])
  {
    var i := IndexOf(ps, src).value;
    var v := ps[i].value;
    var embed := Property("embed", JObject([Property(dest, v)]));
    var q := Property("buildOptions", JObject([embed]));
    var empty: Props := [];
    assert ChildProps(ps, "buildOptions") == empty;
    assert !Has(empty, "embed") && !Has(empty, dest);
    assert MoveResourceItem(ps, src, dest).Ok? by {
      MoveResourceItemFails(ps, src, dest);
    }
    MoveResourceItemResult(ps, src, dest);
    assert EmbeddedProps(ps, dest, v) == [embed];
    var b := InsertAfter(ps, i, Property("buildOptions", JObject([])));
    assert GetOrAdd(ps, "buildOptions", Some(i)).value.parent == b;
    IndexOfFirst(b, "buildOptions", i + 1);
    InsertAfterThenReplace(ps, i, Property("buildOptions", JObject([])), q);
    InsertRemove(ps, i, q);
  }

  /** With buildOptions already an object, it is rewritten where it stands
      and the resource setting leaves the root. */
  lemma MoveResourceItemExisting(ps: Props, src: string, dest: string)
    requires Has(ps, src) && src != "buildOptions" && Has(ps, "buildOptions")
    requires MoveResourceItem(ps, src, dest).Ok?
    ensures var i := IndexOf(ps, src).value;
      var b := IndexOf(ps, "buildOptions").value;
      var build := Property("buildOptions", JObject(EmbeddedProps(ps, dest, ps[i].value)));
      MoveResourceItem(ps, src, dest) == Ok(RemoveAt(ps[b := build], i))
  {
    var i := IndexOf(ps, src).value;
    assert ObjectOrAbsent(ps, "buildOptions") by { MoveResourceItemFails(ps, src, dest); }
    MoveResourceItemResult(ps, src, dest);
    StoreAnchored(ps, i, "buildOptions", JObject(EmbeddedProps(ps, dest, ps[i].value)));
  }

  /** Inserting after i and then removing i puts the new property in i's place. */
  lemma InsertRemove(ps: Props, i: nat, q: Property)
    requires i < |ps|
    ensures RemoveAt(InsertAfter(ps, i, q), i) == ps[i := q]
  {
    var r := InsertAfter(ps, i, q);
    assert r[..i] == ps[..i];
    assert r[i + 1..] == [q] + ps[i + 1..];
    assert ps[i := q] == ps[..i] + [q] + ps[i + 1..];
  }
}
