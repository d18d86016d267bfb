/**
 Loading a configuration tree into the registered variables (code/common/config.cpp:9-57).

 A YAML node is a tree; a map's keys are the scalars of its key nodes.  The text that
 yaml-cpp prints for a node that is not a scalar, and the conversion from text to a value,
 are parameters.  Values of all the variables are taken from one type.
 */
module Config {
  import opened Outcomes
  import opened ConfigVars

  datatype Node =
    | Scalar(text: string)
    | Map(items: seq<Item>)
    | Sequence(nodes: seq<Node>)
    | Null

  datatype Item = Item(key: string, node: Node)

  // An element of the flattened list.
  datatype Member = Member(name: string, node: Node)

  predicate NameChar(c: char) {
    'a' <= c <= 'z' || '0' <= c <= '9' || c == '.' || c == '_'
  }

  predicate ValidName(s: string) {
    forall j :: 0 <= j < |s| ==> NameChar(s[j])
  }

  function Extend(prefix: string, key: string): string {
    if prefix == "" then key else prefix + "." + key
  }

  // ---------- flattening ----------

  function Listing(prefix: string, node: Node): seq<Member>
    decreases node, 1
  {
    if !ValidName(prefix) then []
    else [Member(prefix, node)] + (if node.Map? then ListItems(prefix, node.items) else [])
  }

  function ListItems(prefix: string, items: seq<Item>): seq<Member>
    decreases items, 0
  {
    if items == [] then []
    else Listing(Extend(prefix, items[0].key), items[0].node) + ListItems(prefix, items[1..])
  }

  lemma NoItems(prefix: string, out: seq<Member>)
    ensures out + ListItems(prefix, []) == out
  {
  }

  lemma NextItem(prefix: string, items: seq<Item>, i: nat, out: seq<Member>)
    requires i < |items|
    ensures out + ListItems(prefix, items[i..]) ==
            out + Listing(Extend(prefix, items[i].key), items[i].node) + ListItems(prefix, items[i + 1..])
  {
    assert items[i..][1..] == items[i + 1..];
    hide Listing;
  }

  method ListAllMembers(prefix: string, node: Node, output: seq<Member>) returns (out: seq<Member>)
    ensures out == output + Listing(prefix, node)
    decreases node
  {
    if !ValidName(prefix) {
      return output;
    }
    out := output + [Member(prefix, node)];
    if node.Map? {
      assert output + Listing(prefix, node) == out + ListItems(prefix, node.items);
      hide Listing, ListItems;
      for i := 0 to |node.items|
        invariant output + Listing(prefix, node) == out + ListItems(prefix, node.items[i..])
      {
        NextItem(prefix, node.items, i, out);
        var item := node.items[i];
        var name := if prefix == "" then item.key else prefix + "." + item.key;
        out := ListAllMembers(name, item.node, out);
      }
      assert node.items[|node.items|..] == [];
      NoItems(prefix, out);
    }
  }

  // ---------- what the flattening amounts to ----------

  // A node with the keys that lead to it.
  datatype Place = Place(path: seq<string>, node: Node)

  // All the nodes of a tree in pre-order, whatever their keys look like.
  function PreOrder(path: seq<string>, node: Node): seq<Place>
    decreases node, 1
  {
    [Place(path, node)] + if node.Map? then PreOrderItems(path, node.items) else []
  }

  function PreOrderItems(path: seq<string>, items: seq<Item>): seq<Place>
    decreases items, 0
  {
    if items == [] then []
    else PreOrder(path + [items[0].key], items[0].node) + PreOrderItems(path, items[1..])
  }

  // The dotted path; leading empty keys leave no dot.
  function Dotted(path: seq<string>): string {
    if path == [] then "" else Extend(Dotted(path[..|path| - 1]), path[|path| - 1])
  }

  function Visible(places: seq<Place>): seq<Member> {
    if places == [] then []
    else
      (if ValidName(Dotted(places[0].path)) then [Member(Dotted(places[0].path), places[0].node)] else [])
      + Visible(places[1..])
  }

  lemma {:induction false} VisibleConcat(a: seq<Place>, b: seq<Place>)
    ensures Visible(a + b) == Visible(a) + Visible(b)
  {
    if a == [] {
      assert a + b == b;
    } else {
      assert (a + b)[1..] == a[1..] + b;
      VisibleConcat(a[1..], b);
    }
  }

  lemma DottedExtend(path: seq<string>, key: string)
    ensures Dotted(path + [key]) == Extend(Dotted(path), key)
  {
    assert (path + [key])[..|path|] == path;
  }

  lemma InvalidStays(prefix: string, key: string)
    requires !ValidName(prefix)
    ensures !ValidName(Extend(prefix, key))
  {
    var j :| 0 <= j < |prefix| && !NameChar(prefix[j]);
    assert Extend(prefix, key)[j] == prefix[j];
  }

  // Nothing under an invalid name is visible, however deep and however well-formed its key.
  lemma {:induction false} InvalidHides(path: seq<string>, node: Node)
    requires !ValidName(Dotted(path))
    ensures Visible(PreOrder(path, node)) == []
    decreases node, 1
  {
    if node.Map? {
      InvalidHidesItems(path, node.items);
      VisibleConcat([Place(path, node)], PreOrderItems(path, node.items));
    }
  }

  lemma {:induction false} InvalidHidesItems(path: seq<string>, items: seq<Item>)
    requires !ValidName(Dotted(path))
    ensures Visible(PreOrderItems(path, items)) == []
    decreases items, 0
  {
    if items != [] {
      DottedExtend(path, items[0].key);
      InvalidStays(Dotted(path), items[0].key);
      InvalidHides(path + [items[0].key], items[0].node);
      InvalidHidesItems(path, items[1..]);
      VisibleConcat(PreOrder(path + [items[0].key], items[0].node), PreOrderItems(path, items[1..]));
    }
  }

  // The pruned recursion lists exactly the nodes with a valid dotted path, in pre-order.
  lemma {:induction false} ListingIsVisible(path: seq<string>, node: Node)
    ensures Listing(Dotted(path), node) == Visible(PreOrder(path, node))
    decreases node, 1
  {
    if !ValidName(Dotted(path)) {
      InvalidHides(path, node);
    } else if node.Map? {
      ListItemsIsVisible(path, node.items);
      VisibleConcat([Place(path, node)], PreOrderItems(path, node.items));
    }
  }

  lemma {:induction false} ListItemsIsVisible(path: seq<string>, items: seq<Item>)
    requires ValidName(Dotted(path))
    ensures ListItems(Dotted(path), items) == Visible(PreOrderItems(path, items))
    decreases items, 0
  {
    if items != [] {
      DottedExtend(path, items[0].key);
      ListingIsVisible(path + [items[0].key], items[0].node);
      ListItemsIsVisible(path, items[1..]);
      VisibleConcat(PreOrder(path + [items[0].key], items[0].node), PreOrderItems(path, items[1..]));
    }
  }

  // ---------- lower-casing ----------

  function ToLower(c: char): char {
    if 'A' <= c <= 'Z' then c - 'A' + 'a' else c
  }

  function Lowered(s: string): (r: string)
    ensures |r| == |s|
  {
    seq(|s|, j requires 0 <= j < |s| => ToLower(s[j]))
  }

  lemma LoweringListed(s: string)
    requires ValidName(s)
    ensures Lowered(s) == s
  {
    assert forall j :: 0 <= j < |s| ==> NameChar(s[j]);
  }

  lemma {:induction false} ListedAreValid(prefix: string, node: Node)
    ensures forall m :: m in Listing(prefix, node) ==> ValidName(m.name)
    decreases node, 1
  {
    if node.Map? {
      ListedItemsAreValid(prefix, node.items);
    }
  }

  lemma {:induction false} ListedItemsAreValid(prefix: string, items: seq<Item>)
    ensures forall m :: m in ListItems(prefix, items) ==> ValidName(m.name)
    decreases items, 0
  {
    if items != [] {
      ListedAreValid(Extend(prefix, items[0].key), items[0].node);
      ListedItemsAreValid(prefix, items[1..]);
    }
  }

  // ---------- loading ----------

  function TextOf(node: Node, dump: Node -> string): string {
    if node.Scalar? then node.text else dump(node)
  }

  // What one listed member does to the variable called `name`.
  function Assign<T(==)>(v: Var<T>, m: Member, name: string, conv: string -> Option<T>, dump: Node -> string): Var<T> {
    if m.name == "" || m.name != name then v
    else match conv(TextOf(m.node, dump)) case Some(x) => SetStep(v, x) case None => v
  }

  function AssignAll<T(==)>(v: Var<T>, ms: seq<Member>, name: string, conv: string -> Option<T>,
                            dump: Node -> string): Var<T>
  {
    if ms == [] then v
    else Assign(AssignAll(v, ms[..|ms| - 1], name, conv, dump), ms[|ms| - 1], name, conv, dump)
  }

  predicate Writes<T>(m: Member, name: string, conv: string -> Option<T>, dump: Node -> string) {
    m.name != "" && m.name == name && conv(TextOf(m.node, dump)).Some?
  }

  predicate LastWriter<T>(ms: seq<Member>, k: int, name: string, conv: string -> Option<T>, dump: Node -> string) {
    && 0 <= k < |ms| && Writes(ms[k], name, conv, dump)
    && forall j :: k < j < |ms| ==> !Writes(ms[j], name, conv, dump)
  }

  // The value after loading is the last writer's; without a writer nothing changes at all.
  lemma {:induction false} LastWriterWins<T>(v: Var<T>, ms: seq<Member>, name: string, conv: string -> Option<T>,
                                             dump: Node -> string)
    ensures var w := AssignAll(v, ms, name, conv, dump);
            || (exists k :: LastWriter(ms, k, name, conv, dump) && Some(w.val) == conv(TextOf(ms[k].node, dump)))
            || (w == v && forall k :: 0 <= k < |ms| ==> !Writes(ms[k], name, conv, dump))
  {
    if ms != [] {
      var n := |ms| - 1;
      var before := ms[..n];
      if Writes(ms[n], name, conv, dump) {
        assert LastWriter(ms, n, name, conv, dump);
      } else {
        LastWriterWins(v, before, name, conv, dump);
        var w := AssignAll(v, ms, name, conv, dump);
        assert w == AssignAll(v, before, name, conv, dump);
        hide AssignAll, Assign;
        if k :| LastWriter(before, k, name, conv, dump) && Some(w.val) == conv(TextOf(before[k].node, dump)) {
          assert LastWriter(ms, k, name, conv, dump);
        }
      }
    }
  }

  class Registry<T(==)> {
    var datas: map<string, ConfigVar<T>>

    constructor (datas: map<string, ConfigVar<T>>)
      ensures this.datas == datas
    {
      this.datas := datas;
    }

    method LookupBase(name: string) returns (v: ConfigVar?<T>)
      ensures if name in datas then v == datas[name] else v == null
    {
      v := if name in datas then datas[name] else null;
    }

    // Two names never share a variable: each Lookup makes its own.
    ghost predicate Valid()
      reads this
    {
      forall a, b :: a in datas && b in datas && datas[a] == datas[b] ==> a == b
    }

    // The body of the loop over the flattened list.
    method LoadMember(m: Member, dump: Node -> string)
      requires Valid() && ValidName(m.name)
      modifies datas.Values
      ensures forall name :: name in datas ==>
                datas[name].View() == Assign(old(datas[name].View()), m, name, datas[name].fromStr, dump)
    {
      var key := m.name;
      if key == "" {
        return;
      }
      LoweringListed(key);
      key := Lowered(key);
      var v := LookupBase(key);
      if v != null {
        var _ := v.FromString(if m.node.Scalar? then m.node.text else dump(m.node));
      }
    }

    method LoadFromYaml(root: Node, dump: Node -> string)
      requires Valid()
      modifies datas.Values
      ensures Valid() && datas == old(datas)
      ensures forall name :: name in datas ==>
                datas[name].View() ==
                AssignAll(old(datas[name].View()), Visible(PreOrder([], root)), name, datas[name].fromStr, dump)
    {
      var allNodes := ListAllMembers("", root, []);
      ListingIsVisible([], root);
      ListedAreValid("", root);
      assert allNodes == Listing("", root) == Visible(PreOrder([], root));
      hide Listing, Visible, PreOrder, Assign;
      for i := 0 to |allNodes|
        invariant forall name :: name in datas ==>
                    datas[name].View() ==
                    AssignAll(old(datas[name].View()), allNodes[..i], name, datas[name].fromStr, dump)
      {
        assert allNodes[..i + 1][..i] == allNodes[..i];
        assert allNodes[i] in allNodes;
        LoadMember(allNodes[i], dump);
      }
      assert allNodes[..|allNodes|] == allNodes;
    }
  }
}
