/** A mutable JSON object: the operations of the JSON library's object and
    property types that the migration calls, each one changing the
    object's ordered property list in place. */
module JObjects {
  import opened JsonTree
  import opened OrderedObject

  class JObject {
    var props: Props

    /** Names are unique in this object and in every object below it. */
    ghost predicate Valid()
      reads this
    {
      WellFormedProps(props)
    }

    constructor (ps: Props)
      requires WellFormedProps(ps)
      ensures Valid() && props == ps
    {
      props := ps;
    }

    /** prop.AddAfterSelf(p), where prop is the property at index i. */
    method AddAfterSelf(i: nat, p: Property)
      requires Valid() && i < |props|
      requires !Has(props, p.name) && WellFormed(p.value)
      modifies this
      ensures Valid()
      ensures props == InsertAfter(old(props), i, p)
    {
      WellFormedInsertAfter(props, i, p);
      props := InsertAfter(props, i, p);
    }

    /** obj.Add(p): appends p, and fails when the name is already there. */
    method Add(p: Property) returns (r: Outcome)
      requires Valid() && WellFormed(p.value)
      modifies this
      ensures Valid()
      ensures r == if Has(old(props), p.name) then Fail(DuplicateName(p.name)) else Pass
      ensures props == if r.Pass? then old(props) + [p] else old(props)
    {
      if IndexOf(props, p.name).Some? {
        return Fail(DuplicateName(p.name));
      }
      WellFormedAppend(props, p);
      props := props + [p];
      r := Pass;
    }

    /** prop.Remove(), where prop is the property at index i. */
    method Remove(i: nat)
      requires Valid() && i < |props|
      modifies this
      ensures Valid()
      ensures props == RemoveAt(old(props), i)
    {
      WellFormedRemoveAt(props, i);
      props := RemoveAt(props, i);
    }

    /** prop.Replace(p), where prop is the property at index i: p takes its
        place, and the call fails when another property already has p's name. */
    method Replace(i: nat, p: Property) returns (r: Outcome)
      requires Valid() && i < |props| && WellFormed(p.value)
      modifies this
      ensures Valid()
      ensures r == if p.name != old(props)[i].name && Has(old(props), p.name)
                   then Fail(DuplicateName(p.name)) else Pass
      ensures props == if r.Pass? then old(props)[i := p] else old(props)
    {
      if p.name != props[i].name && IndexOf(props, p.name).Some? {
        return Fail(DuplicateName(p.name));
      }
      WellFormedReplaceAt(props, i, p);
      props := props[i := p];
      r := Pass;
    }

    /** obj[name] = v. */
    method Set(name: string, v: Json)
      requires Valid() && WellFormed(v)
      modifies this
      ensures Valid()
      ensures props == SetOrAppend(old(props), name, v)
    {
      WellFormedSetOrAppend(props, name, v);
      props := SetOrAppend(props, name, v);
    }
  }
}
