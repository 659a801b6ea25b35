/** The name tables of the code generator (type/Names.java): the names of a
    function's arguments and of its locals, in the order they were declared. */
module NameTable {
  import opened Base
  import opened Nodes

  /** `List.indexOf` from position `k` on: the first `i >= k` where `name`
      stands, or -1. */
  function FindFrom(names: seq<string>, name: string, k: nat): (i: int)
    requires k <= |names|
    ensures i == -1 || k <= i < |names|
    ensures i >= 0 ==> names[i] == name && forall j :: k <= j < i ==> names[j] != name
    ensures i == -1 <==> forall j :: k <= j < |names| ==> names[j] != name
    decreases |names| - k
  {
    if k == |names| then -1
    else if names[k] == name then k
    else FindFrom(names, name, k + 1)
  }

  /** `indexOf`: the index of the first occurrence of `name`, or -1 when it
      is absent. */
  function Find(names: seq<string>, name: string): (i: int)
    ensures -1 <= i < |names|
    ensures i >= 0 ==> names[i] == name && name !in names[..i]
    ensures i == -1 <==> name !in names
  {
    FindFrom(names, name, 0)
  }

  /** Appending a name keeps the index of every name already there; a new
      name is found at the end, even when added twice it is found first
      where it was added first. */
  lemma FindSnoc(names: seq<string>, x: string, name: string)
    ensures Find(names + [x], name) ==
      if name in names then Find(names, name) else if name == x then |names| else -1
  {
    var i := Find(names + [x], name);
    if name in names {
      var k := Find(names, name);
      assert (names + [x])[..k] == names[..k];
      if i != k {
        assert false;
      }
    } else if name == x {
      assert (names + [x])[..|names|] == names;
    }
  }

  /** The map of `fromNodeList`: each item's STR value, in order; the first
      item that is not a STR fails it. */
  function StrVals(items: seq<NodeItem>): (r: Result<seq<string>>)
    ensures r.Ok? <==> forall i :: 0 <= i < |items| ==> items[i].Str?
    ensures r.Ok? ==> |r.value| == |items| && forall i :: 0 <= i < |items| ==> items[i] == Str(r.value[i])
    ensures r.Err? ==> r.error == InvalidType
  {
    if |items| == 0 then Ok([])
    else
      var s :- GetStrVal(items[0]);
      var rest :- StrVals(items[1..]);
      assert forall i :: 1 <= i < |items| ==> items[i] == items[1..][i - 1];
      Ok([s] + rest)
  }

  /** `Names`: a list of names that only grows. */
  class Names {
    var names: seq<string>

    /** `new Names()`. */
    constructor()
      ensures names == []
    {
      names := [];
    }

    /** `new Names(list)`. */
    constructor FromSeq(names: seq<string>)
      ensures this.names == names
    {
      this.names := names;
    }

    /** `fromNodeList`: the STR values of the items, in order. */
    static method FromNodeList(items: NodeList) returns (r: Result<Names>)
      ensures r.Ok? <==> forall i :: 0 <= i < |items.items| ==> items.items[i].Str?
      ensures r.Ok? ==> fresh(r.value) && r.value.names == StrVals(items.items).value
      ensures r.Err? ==> r.error == InvalidType
    {
      var vals := [];
      var i := 0;
      while i < |items.items|
        invariant 0 <= i <= |items.items|
        invariant |vals| == i && forall j :: 0 <= j < i ==> items.items[j] == Str(vals[j])
      {
        var s := GetStrVal(items.items[i]);
        if s.Err? {
          return Err(s.error);
        }
        vals := vals + [s.value];
        i := i + 1;
      }
      assert StrVals(items.items).Ok?;
      assert vals == StrVals(items.items).value;
      var t := new Names.FromSeq(vals);
      return Ok(t);
    }

    /** `add`: appends, even a name already there. */
    method Add(name: string)
      modifies this
      ensures names == old(names) + [name]
    {
      names := names + [name];
    }

    /** `contains`. */
    predicate Contains(name: string)
      reads this
      ensures Contains(name) <==> Find(names, name) != -1
    {
      name in names
    }

    /** `indexOf`. */
    function IndexOf(name: string): (i: int)
      reads this
      ensures Contains(name) <==> i >= 0
      ensures i >= 0 ==> i < |names| && names[i] == name && name !in names[..i]
    {
      Find(names, name)
    }
  }
}
