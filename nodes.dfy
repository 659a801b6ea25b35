/** The syntax tree of the compiler (type/NodeItem.java, type/NodeList.java):
    a node item is an int, a string or a list of node items. */
module Nodes {
  import opened Base

  /** `NodeItem.Type`. */
  datatype NodeType = INT | STR | LIST

  /** `NodeItem`: the `of(...)` constructors are the three variants, so the
      type tag always matches the value held. A LIST holds the items of its
      `NodeList` as a value. */
  datatype NodeItem = Int(intVal: Int32) | Str(strVal: string) | List(items: seq<NodeItem>)
  {
    function Type(): NodeType
    {
      match this
      case Int(_) => INT
      case Str(_) => STR
      case List(_) => LIST
    }
  }

  /** `getStrVal`: the text of a STR item; any other item is an invalid type. */
  function GetStrVal(n: NodeItem): (r: Result<string>)
    ensures r.Ok? <==> n.Type() == STR
    ensures r.Ok? ==> n == Str(r.value)
    ensures r.Err? ==> r.error == InvalidType
  {
    if n.Type() != STR then Err(InvalidType) else Ok(n.strVal)
  }

  /** `getIntVal`: the value of an INT item; any other item is an invalid type. */
  function GetIntVal(n: NodeItem): (r: Result<Int32>)
    ensures r.Ok? <==> n.Type() == INT
    ensures r.Ok? ==> n == Int(r.value)
    ensures r.Err? ==> r.error == InvalidType
  {
    if n.Type() != INT then Err(InvalidType) else Ok(n.intVal)
  }

  /** `getItems`: the items of a LIST item; any other item is an invalid type. */
  function GetItems(n: NodeItem): (r: Result<seq<NodeItem>>)
    ensures r.Ok? <==> n.Type() == LIST
    ensures r.Ok? ==> n == List(r.value)
    ensures r.Err? ==> r.error == InvalidType
  {
    if n.Type() != LIST then Err(InvalidType) else Ok(n.items)
  }

  /** `NodeItem.strEq`: only a STR item can be compared with a string. */
  function ItemStrEq(n: NodeItem, s: string): (r: Result<bool>)
    ensures r.Ok? <==> n.Str?
    ensures r.Ok? ==> (r.value <==> n == Str(s))
    ensures r.Err? ==> r.error == InvalidType
  {
    if n.Type() != STR then Err(InvalidType) else Ok(s == n.strVal)
  }

  /** `inspect`: an INT in decimal, a STR between double quotes (no
      escaping), a LIST as its items' inspections between brackets, joined
      by a comma and a space. */
  function Inspect(n: NodeItem): (r: string)
    ensures n.List? ==> |r| >= 2 && r[0] == '[' && r[|r| - 1] == ']'
    ensures n.Str? ==> |r| == |n.strVal| + 2 && r[0] == '"' && r[|r| - 1] == '"'
    decreases n, 1
  {
    match n
    case Int(v) => Dec(v)
    case Str(s) => "\"" + s + "\""
    case List(items) => "[" + InspectJoin(items, |items|) + "]"
  }

  /** The inspections of the first `k` items, in order, separated by `, `. */
  function InspectJoin(items: seq<NodeItem>, k: nat): string
    requires k <= |items|
    decreases items, 0, k
  {
    if k == 0 then ""
    else if k == 1 then Inspect(items[0])
    else InspectJoin(items, k - 1) + ", " + Inspect(items[k - 1])
  }

  /** `inspect` as the Java code computes it: `inspectList` builds the text
      with a loop over the items, inspecting each one recursively. */
  method InspectItem(n: NodeItem) returns (s: string)
    ensures s == Inspect(n)
    decreases n, 1
  {
    match n
    case Int(v) => s := Dec(v);
    case Str(t) => s := "\"" + t + "\"";
    case List(items) => s := InspectList(items);
  }

  method InspectList(items: seq<NodeItem>) returns (s: string)
    ensures s == "[" + InspectJoin(items, |items|) + "]"
    decreases items, 0
  {
    s := "";
    s := s + "[";
    var i := 0;
    while i < |items|
      invariant 0 <= i <= |items|
      invariant s == "[" + InspectJoin(items, i)
    {
      var item := items[i];
      if i >= 1 {
        s := s + ", ";
      }
      var t := InspectItem(item);
      s := s + t;
      i := i + 1;
    }
    s := s + "]";
  }

  /** `NodeList.first`: item 0; `List.get(0)` fails on an empty list. */
  function First(items: seq<NodeItem>): (r: Result<NodeItem>)
    ensures r.Ok? <==> |items| > 0
    ensures r.Ok? ==> r.value == items[0]
    ensures r.Err? ==> r.error == IndexOutOfBounds
  {
    if |items| == 0 then Err(IndexOutOfBounds) else Ok(items[0])
  }

  /** `NodeList.rest`: items 1 to the end; `subList(1, 0)` on an empty list
      is an illegal argument. */
  function Rest(items: seq<NodeItem>): (r: Result<seq<NodeItem>>)
    ensures r.Ok? <==> |items| > 0
    ensures r.Ok? ==> |r.value| == |items| - 1
    ensures r.Ok? ==> forall i :: 0 <= i < |r.value| ==> r.value[i] == items[i + 1]
    ensures r.Ok? ==> r.value == items[1..]
    ensures r.Err? ==> r.error == IllegalArgument
  {
    if |items| == 0 then Err(IllegalArgument) else Ok(items[1..])
  }

  /** `NodeList.get`: the item at `index`, which must be in range. */
  function Get(items: seq<NodeItem>, index: int): (r: Result<NodeItem>)
    ensures r.Ok? <==> 0 <= index < |items|
    ensures r.Ok? ==> r.value == items[index]
    ensures r.Err? ==> r.error == IndexOutOfBounds
  {
    if 0 <= index < |items| then Ok(items[index]) else Err(IndexOutOfBounds)
  }

  /** `NodeList.getStr`: `get(i).getStrVal()`. */
  function GetStr(items: seq<NodeItem>, i: int): (r: Result<string>)
    ensures r.Ok? <==> 0 <= i < |items| && items[i].Str?
    ensures r.Ok? ==> items[i] == Str(r.value)
    ensures !(0 <= i < |items|) ==> r == Err(IndexOutOfBounds)
    ensures 0 <= i < |items| && !items[i].Str? ==> r == Err(InvalidType)
  {
    var item :- Get(items, i);
    GetStrVal(item)
  }

  /** The items in reverse order. */
  function Reversed(items: seq<NodeItem>): (r: seq<NodeItem>)
    ensures |r| == |items|
    ensures forall i :: 0 <= i < |items| ==> r[i] == items[|items| - 1 - i]
  {
    if items == [] then [] else Reversed(items[1..]) + [items[0]]
  }

  /** Reversing twice gives back the original order. */
  lemma ReversedInvolutive(items: seq<NodeItem>)
    ensures Reversed(Reversed(items)) == items
  {
    var r := Reversed(Reversed(items));
    assert |r| == |items|;
    forall i | 0 <= i < |items| ensures r[i] == items[i] {
      assert r[i] == Reversed(items)[|items| - 1 - i];
    }
  }

  /** `first` and `rest` split a non-empty list into its head and its tail. */
  lemma FirstRest(items: seq<NodeItem>)
    requires |items| > 0
    ensures First(items).Ok? && Rest(items).Ok?
    ensures [First(items).value] + Rest(items).value == items
  {
    assert [items[0]] + items[1..] == items;
  }

  /** `NodeList`: a growable list of items, appended to in place. */
  class NodeList {
    var items: seq<NodeItem>

    /** `new NodeList()` and `NodeList.empty()`. */
    constructor ()
      ensures items == []
    {
      items := [];
    }

    /** `new NodeList(List<NodeItem>)`. */
    constructor FromItems(items: seq<NodeItem>)
      ensures this.items == items
    {
      this.items := items;
    }

    /** `NodeList.empty()`: a fresh list of size 0. */
    static method Empty() returns (nl: NodeList)
      ensures fresh(nl) && nl.items == [] && nl.Size() == 0 && nl.IsEmpty()
    {
      nl := new NodeList();
    }

    function Size(): (n: nat)
      reads this
      ensures n == |items|
    {
      |items|
    }

    predicate IsEmpty()
      reads this
      ensures IsEmpty() <==> Size() == 0
    {
      |items| == 0
    }

    /** `add(NodeItem)`: one more item at the end; earlier items unchanged. */
    method Add(item: NodeItem)
      modifies this
      ensures items == old(items) + [item]
      ensures |items| == |old(items)| + 1 && items[..|old(items)|] == old(items)
    {
      items := items + [item];
    }

    /** `add(String)`: appends a STR item. */
    method AddStr(s: string)
      modifies this
      ensures items == old(items) + [Str(s)]
    {
      Add(Str(s));
    }

    /** `add(NodeList)`: appends a LIST item holding the other list's items. */
    method AddList(nl: NodeList)
      modifies this
      ensures items == old(items) + [List(old(nl.items))]
    {
      Add(List(nl.items));
    }

    /** `addAll`: appends every item of `other`, in order (also when `other`
        is this list). */
    method AddAll(other: NodeList)
      modifies this
      ensures items == old(items) + old(other.items)
    {
      items := items + other.items;
    }

    /** `reverse`: a new list with the items in reverse order; this list is
        left as it was. */
    method Reverse() returns (r: NodeList)
      ensures fresh(r)
      ensures r.items == Reversed(items)
    {
      r := new NodeList.FromItems(Reversed(items));
    }

    /** `rest`: a new list with every item but the first. */
    method RestList() returns (r: Result<NodeList>)
      ensures r.Ok? <==> |items| > 0
      ensures r.Ok? ==> fresh(r.value) && r.value.items == items[1..]
      ensures r.Err? ==> r.error == IllegalArgument
    {
      var tail :- Rest(items);
      var nl := new NodeList.FromItems(tail);
      return Ok(nl);
    }
  }
}
