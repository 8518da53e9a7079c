/** The ordered-object primitives the migration is built from: lookup by name,
    insertion right after a given property, removal, replacement in place, and
    the indexer assignment that replaces a value in place or appends it. */
module OrderedObject {
  import opened JsonTree

  /** The properties of one JSON object, in order. */
  type Props = seq<Property>

  predicate Has(ps: Props, name: string) {
    exists j :: 0 <= j < |ps| && ps[j].name == name
  }

  /** No two properties of the object share a name. */
  predicate Unique(ps: Props) {
    forall i, j :: 0 <= i < j < |ps| ==> ps[i].name != ps[j].name
  }

  /** Every object in the value, however deep, has unique names: what a
      parsed document guarantees and every operation keeps. */
  predicate WellFormed(j: Json) {
    match j
    case JObject(ps) => Unique(ps) && forall i :: 0 <= i < |ps| ==> WellFormed(ps[i].value)
    case JArray(items) => forall i :: 0 <= i < |items| ==> WellFormed(items[i])
    case _ => true
  }

  predicate WellFormedProps(ps: Props) {
    WellFormed(JObject(ps))
  }

  /** The position of the first property called name. */
  function IndexOf(ps: Props, name: string): (r: Option<nat>)
    ensures r.Some? <==> Has(ps, name)
    ensures r.Some? ==> r.value < |ps| && ps[r.value].name == name
    ensures r.Some? ==> forall j :: 0 <= j < r.value ==> ps[j].name != name
  {
    if |ps| == 0 then None
    else if ps[0].name == name then Some(0)
    else match IndexOf(ps[1..], name)
      case None => None
      case Some(k) => Some(k + 1)
  }

  /** The value stored under name: the object indexer read. */
  function Get(ps: Props, name: string): (r: Option<Json>)
    ensures r.Some? <==> Has(ps, name)
  {
    match IndexOf(ps, name)
    case None => None
    case Some(i) => Some(ps[i].value)
  }

  /** The properties of the object stored under name; none when it is absent
      or not an object. */
  function ChildProps(ps: Props, name: string): Props {
    match Get(ps, name)
    case Some(JObject(c)) => c
    case _ => []
  }

  /** Inserts p immediately after the property at index i. */
  function InsertAfter(ps: Props, i: nat, p: Property): (r: Props)
    requires i < |ps|
    ensures |r| == |ps| + 1 && r[i + 1] == p
    ensures forall j :: 0 <= j <= i ==> r[j] == ps[j]
    ensures forall j :: i < j < |ps| ==> r[j + 1] == ps[j]
  {
    ps[..i + 1] + [p] + ps[i + 1..]
  }

  /** Removes the property at index i; everything after it moves up one place. */
  function RemoveAt(ps: Props, i: nat): (r: Props)
    requires i < |ps|
    ensures |r| == |ps| - 1
    ensures forall j :: 0 <= j < i ==> r[j] == ps[j]
    ensures forall j :: i < j < |ps| ==> r[j - 1] == ps[j]
  {
    ps[..i] + ps[i + 1..]
  }

  /** obj[name] = v: the value is replaced in place when the name is there,
      otherwise a new property is appended. */
  function SetOrAppend(ps: Props, name: string, v: Json): (r: Props)
    ensures Has(ps, name) ==> |r| == |ps| && r[IndexOf(ps, name).value] == Property(name, v)
    ensures Has(ps, name) ==> forall j :: 0 <= j < |ps| && j != IndexOf(ps, name).value ==> r[j] == ps[j]
    ensures !Has(ps, name) ==> |r| == |ps| + 1 && r[..|ps|] == ps && r[|ps|] == Property(name, v)
  {
    match IndexOf(ps, name)
    case Some(i) => ps[i := Property(name, v)]
    case None => ps + [Property(name, v)]
  }

  // ---------------------------------------------------------------------------
  // Lookup under unique names

  /** In an object with unique names, the property at j is the one every
      lookup of its name finds. */
  lemma IndexOfAt(ps: Props, j: nat)
    requires Unique(ps) && j < |ps|
    ensures IndexOf(ps, ps[j].name) == Some(j)
    ensures Get(ps, ps[j].name) == Some(ps[j].value)
  {
  }

  /** The first property with a name is the one IndexOf finds. */
  lemma IndexOfFirst(ps: Props, name: string, k: nat)
    requires k < |ps| && ps[k].name == name
    requires forall j :: 0 <= j < k ==> ps[j].name != name
    ensures IndexOf(ps, name) == Some(k)
  {
  }

  /** Assigning a name the object holds at j replaces position j. */
  lemma SetOrAppendAt(ps: Props, j: nat, v: Json)
    requires Unique(ps) && j < |ps|
    ensures SetOrAppend(ps, ps[j].name, v) == ps[j := Property(ps[j].name, v)]
  {
    IndexOfAt(ps, j);
  }

  /** Assigning a value a name already holds changes nothing. */
  lemma SetOrAppendSame(ps: Props, name: string)
    requires Has(ps, name)
    ensures SetOrAppend(ps, name, Get(ps, name).value) == ps
  {
    var i := IndexOf(ps, name).value;
    assert ps[i := Property(name, ps[i].value)] == ps;
  }

  /** Replacing a property by one of the same name moves no name. */
  lemma IndexOfReplace(ps: Props, k: nat, q: Property, n: string)
    requires k < |ps| && q.name == ps[k].name
    ensures IndexOf(ps[k := q], n) == IndexOf(ps, n)
  {
    var r := ps[k := q];
    assert forall j :: 0 <= j < |ps| ==> r[j].name == ps[j].name;
    if Has(ps, n) {
      IndexOfFirst(r, n, IndexOf(ps, n).value);
    } else {
      assert !Has(r, n);
    }
  }

  /** Inserting a property of another name after i shifts a name found
      after i by one place and leaves one found up to i where it was. */
  lemma IndexOfInsertAfter(ps: Props, i: nat, q: Property, n: string, k: nat)
    requires i < |ps| && q.name != n && IndexOf(ps, n) == Some(k)
    ensures IndexOf(InsertAfter(ps, i, q), n) == Some(if k <= i then k else k + 1)
  {
    var r := InsertAfter(ps, i, q);
    if k <= i {
      IndexOfFirst(r, n, k);
    } else {
      forall j | 0 <= j < k + 1 ensures r[j].name != n {
        if j > i + 1 { assert r[j] == ps[j - 1]; }
      }
      IndexOfFirst(r, n, k + 1);
    }
  }

  /** Inserting q after i, overwriting the shifted position of b, and then
      removing i: q stands in i's place and b is overwritten where it was. */
  lemma RemoveInsertedReplace(ps: Props, i: nat, q: Property, b: nat, x: Property)
    requires i < |ps| && b < |ps| && b != i
    ensures RemoveAt(InsertAfter(ps, i, q)[(if b < i then b else b + 1) := x], i) == ps[i := q][b := x]
  {
    var t := InsertAfter(ps, i, q)[(if b < i then b else b + 1) := x];
    var l := RemoveAt(t, i);
    var r := ps[i := q][b := x];
    forall j | 0 <= j < |ps| ensures l[j] == r[j] {
      if j < i {
        assert l[j] == t[j];
      } else {
        assert l[j] == t[j + 1];
      }
    }
  }

  // ---------------------------------------------------------------------------
  // How each primitive changes what a lookup finds

  /** Inserting a new name makes it found and leaves every other lookup alone. */
  lemma {:induction false} GetInsertAfter(ps: Props, i: nat, p: Property, n: string)
    requires i < |ps| && !Has(ps, p.name)
    ensures Get(InsertAfter(ps, i, p), n) == if n == p.name then Some(p.value) else Get(ps, n)
  {
    var r := InsertAfter(ps, i, p);
    if n == p.name {
      IndexOfFirst(r, n, i + 1);
    } else if Has(ps, n) {
      var k := IndexOf(ps, n).value;
      if k <= i {
        IndexOfFirst(r, n, k);
      } else {
        assert r[k + 1] == ps[k];
        forall j | 0 <= j < k + 1 ensures r[j].name != n {
          if j > i + 1 { assert r[j] == ps[j - 1]; }
        }
        IndexOfFirst(r, n, k + 1);
      }
    } else {
      forall j | 0 <= j < |r| ensures r[j].name != n {
        if j > i + 1 { assert r[j] == ps[j - 1]; }
      }
    }
  }

  /** Appending a new name makes it found and leaves every other lookup alone. */
  lemma GetAppend(ps: Props, p: Property, n: string)
    requires !Has(ps, p.name)
    ensures Get(ps + [p], n) == if n == p.name then Some(p.value) else Get(ps, n)
  {
    var r := ps + [p];
    if n == p.name {
      IndexOfFirst(r, n, |ps|);
    } else if Has(ps, n) {
      IndexOfFirst(r, n, IndexOf(ps, n).value);
    } else {
      assert forall j :: 0 <= j < |r| ==> r[j].name != n by {
        forall j | 0 <= j < |r| ensures r[j].name != n {
          if j < |ps| { assert r[j] == ps[j]; }
        }
      }
    }
  }

  /** Removing a property of a unique-named object makes its name absent and
      leaves every other lookup alone. */
  lemma {:induction false} GetRemoveAt(ps: Props, i: nat, n: string)
    requires Unique(ps) && i < |ps|
    ensures Get(RemoveAt(ps, i), n) == if n == ps[i].name then None else Get(ps, n)
  {
    var r := RemoveAt(ps, i);
    if n == ps[i].name {
      forall j | 0 <= j < |r| ensures r[j].name != n {
        if j >= i { assert r[j] == ps[j + 1]; }
      }
      assert !Has(r, n);
    } else if Has(ps, n) {
      var k := IndexOf(ps, n).value;
      if k < i {
        assert r[k] == ps[k];
        IndexOfFirst(r, n, k);
      } else {
        assert r[k - 1] == ps[k];
        forall j | 0 <= j < k - 1 ensures r[j].name != n {
          if j >= i { assert r[j] == ps[j + 1]; }
        }
        IndexOfFirst(r, n, k - 1);
      }
    } else {
      forall j | 0 <= j < |r| ensures r[j].name != n {
        if j >= i { assert r[j] == ps[j + 1]; }
      }
      assert !Has(r, n);
    }
  }

  /** After obj[name] = v, name holds v and every other lookup is unchanged. */
  lemma GetSetOrAppend(ps: Props, name: string, v: Json, n: string)
    ensures Get(SetOrAppend(ps, name, v), n) == if n == name then Some(v) else Get(ps, n)
  {
    if Has(ps, name) {
      var i := IndexOf(ps, name).value;
      var r := SetOrAppend(ps, name, v);
      if n == name {
        IndexOfFirst(r, n, i);
      } else if Has(ps, n) {
        IndexOfFirst(r, n, IndexOf(ps, n).value);
      } else {
        assert forall j :: 0 <= j < |r| ==> r[j].name != n by {
          forall j | 0 <= j < |r| ensures r[j].name != n {
            if j != i { assert r[j] == ps[j]; }
          }
        }
      }
    } else {
      GetAppend(ps, Property(name, v), n);
    }
  }

  // ---------------------------------------------------------------------------
  // Each primitive keeps names unique and the tree well formed

  lemma WellFormedInsertAfter(ps: Props, i: nat, p: Property)
    requires WellFormedProps(ps) && i < |ps| && !Has(ps, p.name) && WellFormed(p.value)
    ensures WellFormedProps(InsertAfter(ps, i, p))
  {
    var r := InsertAfter(ps, i, p);
    forall a, b | 0 <= a < b < |r| ensures r[a].name != r[b].name {
      var a' := if a <= i then a else a - 1;
      var b' := if b <= i then b else b - 1;
      if a == i + 1 { assert r[b] == ps[b']; }
      else if b == i + 1 { assert r[a] == ps[a']; }
      else { assert r[a] == ps[a'] && r[b] == ps[b']; }
    }
    forall a | 0 <= a < |r| ensures WellFormed(r[a].value) {
      if a != i + 1 { assert r[a] == ps[if a <= i then a else a - 1]; }
    }
  }

  lemma WellFormedAppend(ps: Props, p: Property)
    requires WellFormedProps(ps) && !Has(ps, p.name) && WellFormed(p.value)
    ensures WellFormedProps(ps + [p])
  {
    var r := ps + [p];
    forall a, b | 0 <= a < b < |r| ensures r[a].name != r[b].name {
      assert r[a] == ps[a];
      if b < |ps| { assert r[b] == ps[b]; }
    }
    forall a | 0 <= a < |r| ensures WellFormed(r[a].value) {
      if a < |ps| { assert r[a] == ps[a]; }
    }
  }

  lemma WellFormedRemoveAt(ps: Props, i: nat)
    requires WellFormedProps(ps) && i < |ps|
    ensures WellFormedProps(RemoveAt(ps, i))
  {
    var r := RemoveAt(ps, i);
    forall a, b | 0 <= a < b < |r| ensures r[a].name != r[b].name {
      var a' := if a < i then a else a + 1;
      var b' := if b < i then b else b + 1;
      assert r[a] == ps[a'] && r[b] == ps[b'];
    }
    forall a | 0 <= a < |r| ensures WellFormed(r[a].value) {
      assert r[a] == ps[if a < i then a else a + 1];
    }
  }

  /** Replacing the property at i keeps names unique when the new name is the
      old one or held nowhere else. */
  lemma WellFormedReplaceAt(ps: Props, i: nat, p: Property)
    requires WellFormedProps(ps) && i < |ps| && WellFormed(p.value)
    requires p.name == ps[i].name || !Has(ps, p.name)
    ensures WellFormedProps(ps[i := p])
  {
    var r := ps[i := p];
    forall a, b | 0 <= a < b < |r| ensures r[a].name != r[b].name {
      if a == i { assert r[b] == ps[b]; }
      else if b == i { assert r[a] == ps[a]; }
    }
  }

  lemma WellFormedSetOrAppend(ps: Props, name: string, v: Json)
    requires WellFormedProps(ps) && WellFormed(v)
    ensures WellFormedProps(SetOrAppend(ps, name, v))
  {
    if Has(ps, name) {
      WellFormedReplaceAt(ps, IndexOf(ps, name).value, Property(name, v));
    } else {
      WellFormedAppend(ps, Property(name, v));
    }
  }

  /** The members of a well-formed object are well formed. */
  lemma WellFormedGet(ps: Props, name: string)
    requires WellFormedProps(ps) && Has(ps, name)
    ensures WellFormed(Get(ps, name).value)
  {
  }

  lemma WellFormedChild(ps: Props, name: string)
    requires WellFormedProps(ps)
    ensures WellFormedProps(ChildProps(ps, name))
  {
  }
}
