/**
 The names that a configuration tree's nodes are loaded under, and the order they are loaded
 in, said without the functions that the flattening is built from (code/common/config.cpp:9-46).
 */
module ConfigNames {
  import opened Outcomes
  import opened ConfigVars
  import opened Config

  lemma NameCharsAre(c: char)
    ensures NameChar(c) <==> c in "abcdefghijklmnopqrstuvwxyz0123456789._"
  {
  }

  // ---------- joining and splitting at dots ----------

  function JoinDots(keys: seq<string>): string {
    if keys == [] then "" else if |keys| == 1 then keys[0] else keys[0] + "." + JoinDots(keys[1..])
  }

  function FirstDot(s: string): (k: nat)
    ensures k <= |s| && (k < |s| ==> s[k] == '.') && forall j :: 0 <= j < k ==> s[j] != '.'
  {
    if s == "" || s[0] == '.' then 0
    else
      assert forall j :: 1 <= j < |s| ==> s[j] == s[1..][j - 1];
      1 + FirstDot(s[1..])
  }

  function SplitDots(s: string): seq<string> {
    var k := FirstDot(s);
    if k == |s| then [s] else [s[..k]] + SplitDots(s[k + 1..])
  }

  function Trimmed(path: seq<string>): seq<string> {
    if path != [] && path[0] == "" then Trimmed(path[1..]) else path
  }

  lemma {:induction false} SplitUndoesJoin(keys: seq<string>)
    requires keys != [] && forall j :: 0 <= j < |keys| ==> '.' !in keys[j]
    ensures SplitDots(JoinDots(keys)) == keys
  {
    var s := JoinDots(keys);
    if |keys| == 1 {
      FirstDotIs(s, |s|);
    } else {
      var key := keys[0];
      assert s == key + "." + JoinDots(keys[1..]);
      FirstDotIs(s, |key|);
      assert s[..|key|] == key && s[|key| + 1..] == JoinDots(keys[1..]);
      SplitUndoesJoin(keys[1..]);
    }
  }

  lemma FirstDotIs(s: string, k: nat)
    requires k <= |s| && (k < |s| ==> s[k] == '.') && forall j :: 0 <= j < k ==> s[j] != '.'
    ensures FirstDot(s) == k
  {
  }

  lemma {:induction false} JoinAppends(keys: seq<string>, key: string)
    ensures JoinDots(keys + [key]) == if keys == [] then key else JoinDots(keys) + "." + key
  {
    if keys == [] {
      assert keys + [key] == [key];
    } else {
      assert (keys + [key])[1..] == keys[1..] + [key];
      JoinAppends(keys[1..], key);
      if |keys| > 1 {
        assert keys[0] + "." + (JoinDots(keys[1..]) + "." + key) == keys[0] + "." + JoinDots(keys[1..]) + "." + key;
      }
    }
  }

  lemma {:induction false} TrimAppends(path: seq<string>, key: string)
    ensures Trimmed(path + [key]) ==
            if Trimmed(path) == [] then (if key == "" then [] else [key]) else Trimmed(path) + [key]
  {
    if path == [] {
      assert path + [key] == [key];
      assert [key][1..] == [];
    } else {
      assert (path + [key])[1..] == path[1..] + [key];
      TrimAppends(path[1..], key);
    }
  }

  lemma {:induction false} TrimStarts(path: seq<string>)
    ensures Trimmed(path) != [] ==> Trimmed(path)[0] != ""
  {
    if path != [] {
      TrimStarts(path[1..]);
    }
  }

  lemma JoinNonEmpty(keys: seq<string>)
    requires keys != [] && keys[0] != ""
    ensures JoinDots(keys) != ""
  {
  }

  // The name of a place: its keys with a dot between any two, leading empty keys left out.
  lemma {:induction false} DottedIsJoin(path: seq<string>)
    ensures Dotted(path) == JoinDots(Trimmed(path))
    ensures Dotted(path) == "" <==> Trimmed(path) == []
  {
    if path != [] {
      var front, key := path[..|path| - 1], path[|path| - 1];
      assert path == front + [key];
      DottedIsJoin(front);
      DottedExtend(front, key);
      TrimAppends(front, key);
      TrimStarts(front);
      JoinAppends(Trimmed(front), key);
      assert [] + [key] == [key];
    }
  }

  // A name can be split into the keys it was made of: no dot is lost and none is added.
  lemma SplitUndoesDotted(path: seq<string>)
    requires path != [] && path[0] != "" && forall j :: 0 <= j < |path| ==> '.' !in path[j]
    ensures SplitDots(Dotted(path)) == path
  {
    DottedIsJoin(path);
    SplitUndoesJoin(path);
  }

  // Hence nodes at different places have different names.
  lemma NamesTellPlaces(a: seq<string>, b: seq<string>)
    requires a != [] && a[0] != "" && forall j :: 0 <= j < |a| ==> '.' !in a[j]
    requires b != [] && b[0] != "" && forall j :: 0 <= j < |b| ==> '.' !in b[j]
    ensures Dotted(a) == Dotted(b) <==> a == b
  {
    SplitUndoesDotted(a);
    SplitUndoesDotted(b);
  }

  // ---------- which variable a node is loaded into ----------

  function NameOf(path: seq<string>): string {
    JoinDots(Trimmed(path))
  }

  predicate PlainName(name: string) {
    name != "" && forall j :: 0 <= j < |name| ==> name[j] in "abcdefghijklmnopqrstuvwxyz0123456789._"
  }

  // The node at this place has the name, and its text converts.
  predicate Sets<T>(place: Place, name: string, conv: string -> Option<T>, dump: Node -> string) {
    && NameOf(place.path) == name
    && conv(if place.node.Scalar? then place.node.text else dump(place.node)).Some?
  }

  predicate LastSetter<T>(ps: seq<Place>, k: int, name: string, conv: string -> Option<T>, dump: Node -> string) {
    && 0 <= k < |ps| && Sets(ps[k], name, conv, dump)
    && forall j :: k < j < |ps| ==> !Sets(ps[j], name, conv, dump)
  }

  // The variable has the value of the last setter, or is as it was if there is none.
  ghost predicate Loaded<T>(v: Var<T>, w: Var<T>, ps: seq<Place>, name: string, conv: string -> Option<T>,
                            dump: Node -> string)
  {
    || (exists k :: LastSetter(ps, k, name, conv, dump)
          && Some(w.val) == conv(if ps[k].node.Scalar? then ps[k].node.text else dump(ps[k].node)))
    || (w == v && forall k :: 0 <= k < |ps| ==> !Sets(ps[k], name, conv, dump))
  }

  // Loading a tree gives a variable the value of the last node, in document order, whose keys
  // join to its name and whose text converts.
  lemma {:induction false} LoadedFrom<T>(v: Var<T>, ps: seq<Place>, name: string, conv: string -> Option<T>,
                                         dump: Node -> string)
    requires PlainName(name)
    ensures Loaded(v, AssignAll(v, Visible(ps), name, conv, dump), ps, name, conv, dump)
  {
    hide PlainName, Sets, LastSetter;
    if ps != [] {
      hide *;
      var n := |ps| - 1;
      var front, p := ps[..n], ps[n];
      LoadedFrom(v, front, name, conv, dump);
      var w := AssignAll(v, Visible(front), name, conv, dump);
      assert ps == front + [p];
      LastPlace(v, w, front, p, name, conv, dump);
      OnePlace(w, p, name, conv, dump);
      LoadedMore(v, w, AssignAll(v, Visible(ps), name, conv, dump), front, p, name, conv, dump);
    }
  }

  lemma LastPlace<T>(v: Var<T>, w: Var<T>, front: seq<Place>, p: Place, name: string, conv: string -> Option<T>,
                     dump: Node -> string)
    requires w == AssignAll(v, Visible(front), name, conv, dump)
    ensures AssignAll(v, Visible(front + [p]), name, conv, dump) ==
            if ValidName(Dotted(p.path)) then Assign(w, Member(Dotted(p.path), p.node), name, conv, dump) else w
  {
    VisibleConcat(front, [p]);
    assert [p][1..] == [] && Visible([]) == [];
    var ms, m := Visible(front), Member(Dotted(p.path), p.node);
    assert Visible([p]) == if ValidName(Dotted(p.path)) then [m] else [];
    hide Visible, Assign, ValidName, Dotted;
    assert (ms + [m])[..|ms|] == ms && ms + [] == ms;
  }

  lemma OnePlace<T>(w: Var<T>, p: Place, name: string, conv: string -> Option<T>, dump: Node -> string)
    requires PlainName(name)
    ensures var m := Member(Dotted(p.path), p.node);
            var w' := if ValidName(m.name) then Assign(w, m, name, conv, dump) else w;
            if Sets(p, name, conv, dump) then
              Some(w'.val) == conv(if p.node.Scalar? then p.node.text else dump(p.node))
            else w' == w
  {
    DottedIsJoin(p.path);
    forall j | 0 <= j < |name|
      ensures NameChar(name[j])
    {
      NameCharsAre(name[j]);
    }
    assert ValidName(name);
    hide ValidName, Dotted, JoinDots, Trimmed;
  }

  lemma LoadedMore<T>(v: Var<T>, w: Var<T>, w': Var<T>, front: seq<Place>, p: Place, name: string,
                      conv: string -> Option<T>, dump: Node -> string)
    requires Loaded(v, w, front, name, conv, dump)
    requires if Sets(p, name, conv, dump) then
               Some(w'.val) == conv(if p.node.Scalar? then p.node.text else dump(p.node))
             else w' == w
    ensures Loaded(v, w', front + [p], name, conv, dump)
  {
    hide Sets;
    var ps := front + [p];
    if Sets(p, name, conv, dump) {
      assert LastSetter(ps, |front|, name, conv, dump);
    } else if k :| LastSetter(front, k, name, conv, dump)
                   && Some(w.val) == conv(if front[k].node.Scalar? then front[k].node.text else dump(front[k].node)) {
      assert LastSetter(ps, k, name, conv, dump);
    }
  }

  // A node is listed, under its joined keys, if and only if that is a name of plain characters.
  lemma ListedAs(root: Node, m: Member)
    ensures m in Listing("", root) <==>
              && ValidName(m.name)
              && exists k :: 0 <= k < |PreOrder([], root)| && PreOrder([], root)[k].node == m.node
                    && NameOf(PreOrder([], root)[k].path) == m.name
  {
    ListingIsVisible([], root);
    var ps := PreOrder([], root);
    hide Listing, PreOrder, ValidName, Trimmed, JoinDots;
    VisibleIff(ps, m);
    forall k | 0 <= k < |ps|
      ensures Dotted(ps[k].path) == NameOf(ps[k].path)
    {
      DottedIsJoin(ps[k].path);
    }
  }

  lemma {:induction false} VisibleIff(ps: seq<Place>, m: Member)
    ensures m in Visible(ps) <==>
              ValidName(m.name) && exists k :: 0 <= k < |ps| && ps[k].node == m.node && Dotted(ps[k].path) == m.name
  {
    hide ValidName, Dotted;
    if ps != [] {
      VisibleIff(ps[1..], m);
      assert forall k :: 0 <= k < |ps[1..]| ==> ps[1..][k] == ps[k + 1];
      assert forall k :: 1 <= k < |ps| ==> ps[k] == ps[1..][k - 1];
    }
  }

  // The tree `server: {port: 80}`.
  lemma ServerPort()
    ensures var port := Scalar("80");
            var server := Map([Item("port", port)]);
            var root := Map([Item("server", server)]);
            Listing("", root) == [Member("", root), Member("server", server), Member("server.port", port)]
  {
    var port := Scalar("80");
    var server := Map([Item("port", port)]);
    var root := Map([Item("server", server)]);
    assert [Item("port", port)][1..] == [] && [Item("server", server)][1..] == [];
    assert "server" + "." + "port" == "server.port";
    assert ListItems("server", server.items) == Listing("server.port", port) + [];
    assert ListItems("", root.items) == Listing("server", server) + [];
  }

  // ---------- document order ----------

  // The node reached by taking the a[0]-th item of a map, then the a[1]-th of that, and so on.
  function At(node: Node, a: seq<nat>): Option<Place> {
    if a == [] then Some(Place([], node))
    else if node.Map? && a[0] < |node.items| then
      match At(node.items[a[0]].node, a[1..])
      case Some(p) => Some(Place([node.items[a[0]].key] + p.path, p.node))
      case None => None
    else None
  }

  // A parent comes before its items, and items in the order they are written in.
  predicate Earlier(a: seq<nat>, b: seq<nat>) {
    b != [] && (a == [] || a[0] < b[0] || (a[0] == b[0] && Earlier(a[1..], b[1..])))
  }

  // The place is the one that the address leads to, its keys added to the path.
  predicate Leads(node: Node, a: seq<nat>, path: seq<string>, p: Place) {
    At(node, a).Some? && p == Place(path + At(node, a).value.path, At(node, a).value.node)
  }

  predicate InOrder(adrs: seq<seq<nat>>) {
    forall k, l :: 0 <= k < l < |adrs| ==> Earlier(adrs[k], adrs[l])
  }

  predicate AllLead(node: Node, adrs: seq<seq<nat>>, path: seq<string>, ps: seq<Place>) {
    |adrs| == |ps| && forall k :: 0 <= k < |adrs| ==> Leads(node, adrs[k], path, ps[k])
  }

  // The flattening visits every node of the tree, each once, in document order.
  lemma {:induction false} DocumentOrder(path: seq<string>, node: Node) returns (adrs: seq<seq<nat>>)
    ensures AllLead(node, adrs, path, PreOrder(path, node)) && InOrder(adrs)
    ensures forall a :: At(node, a).Some? ==> a in adrs
    decreases node, 1
  {
    var rest: seq<seq<nat>> := [];
    if node.Map? {
      rest := ItemsInOrder(path, node.items);
    }
    adrs := [[]] + rest;
    assert path + [] == path;
    assert forall a :: At(node, a).Some? ==> a == [] || node.Map?;
    hide At;
  }

  lemma {:induction false} ItemsInOrder(path: seq<string>, items: seq<Item>) returns (adrs: seq<seq<nat>>)
    ensures AllLead(Map(items), adrs, path, PreOrderItems(path, items)) && InOrder(adrs)
    ensures forall k :: 0 <= k < |adrs| ==> adrs[k] != []
    ensures forall a :: a != [] && At(Map(items), a).Some? ==> a in adrs
    decreases items, 0
  {
    if items == [] {
      adrs := [];
    } else {
      var first := DocumentOrder(path + [items[0].key], items[0].node);
      var rest := ItemsInOrder(path, items[1..]);
      adrs := Under(first) + After(rest);
      var ps, qs := PreOrder(path + [items[0].key], items[0].node), PreOrderItems(path, items[1..]);
      assert PreOrderItems(path, items) == ps + qs;
      hide PreOrder, PreOrderItems;
      UnderLeads(items, first, path, ps);
      AfterLeads(items, rest, path, qs);
      hide *;
      Together(items, Under(first), After(rest), path, ps, qs);
    }
  }

  lemma Together(items: seq<Item>, a: seq<seq<nat>>, b: seq<seq<nat>>, path: seq<string>, ps: seq<Place>,
                 qs: seq<Place>)
    requires AllLead(Map(items), a, path, ps) && AllLead(Map(items), b, path, qs) && InOrder(a) && InOrder(b)
    requires forall k :: 0 <= k < |a| ==> a[k] != [] && a[k][0] == 0
    requires forall k :: 0 <= k < |b| ==> b[k] != [] && b[k][0] > 0
    ensures AllLead(Map(items), a + b, path, ps + qs) && InOrder(a + b)
  {
    hide Leads;
  }

  lemma UnderLeads(items: seq<Item>, adrs: seq<seq<nat>>, path: seq<string>, ps: seq<Place>)
    requires items != [] && AllLead(items[0].node, adrs, path + [items[0].key], ps) && InOrder(adrs)
    requires forall a :: At(items[0].node, a).Some? ==> a in adrs
    ensures AllLead(Map(items), Under(adrs), path, ps) && InOrder(Under(adrs))
    ensures forall k :: 0 <= k < |Under(adrs)| ==> Under(adrs)[k] != [] && Under(adrs)[k][0] == 0
    ensures forall a :: a != [] && a[0] == 0 && At(Map(items), a).Some? ==> a in Under(adrs)
  {
    hide At;
    forall a: seq<nat>
      ensures At(Map(items), [0] + a) == Below(items[0].key, At(items[0].node, a))
    {
      UnderAt(items, a);
    }
    forall k | 0 <= k < |adrs|
      ensures Leads(Map(items), Under(adrs)[k], path, ps[k])
    {
      assert Leads(items[0].node, adrs[k], path + [items[0].key], ps[k]);
      var p := At(items[0].node, adrs[k]).value;
      assert path + [items[0].key] + p.path == path + ([items[0].key] + p.path);
    }
    forall a: seq<nat> | a != [] && a[0] == 0 && At(Map(items), a).Some?
      ensures a in Under(adrs)
    {
      assert a == [0] + a[1..];
      assert a[1..] in adrs;
      var k :| 0 <= k < |adrs| && adrs[k] == a[1..];
      assert Under(adrs)[k] == a;
    }
    assert forall k :: 0 <= k < |adrs| ==> Under(adrs)[k][1..] == adrs[k];
  }

  function Below(key: string, p: Option<Place>): Option<Place> {
    match p
    case Some(q) => Some(Place([key] + q.path, q.node))
    case None => None
  }

  lemma UnderAt(items: seq<Item>, a: seq<nat>)
    requires items != []
    ensures At(Map(items), [0] + a) == Below(items[0].key, At(items[0].node, a))
  {
    assert ([0] + a)[1..] == a;
  }

  lemma AfterAt(items: seq<Item>, i: nat, a: seq<nat>)
    requires items != []
    ensures At(Map(items), [i + 1] + a) == At(Map(items[1..]), [i] + a)
  {
    assert ([i + 1] + a)[1..] == a && ([i] + a)[1..] == a;
  }

  lemma AfterLeads(items: seq<Item>, adrs: seq<seq<nat>>, path: seq<string>, ps: seq<Place>)
    requires items != [] && AllLead(Map(items[1..]), adrs, path, ps) && InOrder(adrs)
    requires forall k :: 0 <= k < |adrs| ==> adrs[k] != []
    requires forall a :: a != [] && At(Map(items[1..]), a).Some? ==> a in adrs
    ensures AllLead(Map(items), After(adrs), path, ps) && InOrder(After(adrs))
    ensures forall k :: 0 <= k < |After(adrs)| ==> After(adrs)[k] != [] && After(adrs)[k][0] > 0
    ensures forall a :: a != [] && a[0] > 0 && At(Map(items), a).Some? ==> a in After(adrs)
  {
    hide At, InOrder, AllLead;
    AfterInOrder(adrs);
    AfterAllLead(items, adrs, path, ps);
    forall a: seq<nat> | a != [] && a[0] > 0 && At(Map(items), a).Some?
      ensures a in After(adrs)
    {
      assert a == [a[0] - 1 + 1] + a[1..];
      AfterAt(items, a[0] - 1, a[1..]);
      AfterFinds(adrs, a);
    }
  }

  lemma AfterInOrder(adrs: seq<seq<nat>>)
    requires InOrder(adrs) && forall k :: 0 <= k < |adrs| ==> adrs[k] != []
    ensures InOrder(After(adrs))
  {
    assert forall k :: 0 <= k < |adrs| ==> After(adrs)[k][1..] == adrs[k][1..];
  }

  lemma AfterAllLead(items: seq<Item>, adrs: seq<seq<nat>>, path: seq<string>, ps: seq<Place>)
    requires items != [] && AllLead(Map(items[1..]), adrs, path, ps)
    requires forall k :: 0 <= k < |adrs| ==> adrs[k] != []
    ensures AllLead(Map(items), After(adrs), path, ps)
  {
    hide At;
    forall k | 0 <= k < |adrs|
      ensures Leads(Map(items), After(adrs)[k], path, ps[k])
    {
      assert adrs[k] == [adrs[k][0]] + adrs[k][1..];
      AfterAt(items, adrs[k][0], adrs[k][1..]);
      assert Leads(Map(items[1..]), adrs[k], path, ps[k]);
    }
  }

  lemma AfterFinds(adrs: seq<seq<nat>>, a: seq<nat>)
    requires forall k :: 0 <= k < |adrs| ==> adrs[k] != []
    requires a != [] && a[0] > 0 && [a[0] - 1] + a[1..] in adrs
    ensures a in After(adrs)
  {
    var b := [a[0] - 1] + a[1..];
    var k :| 0 <= k < |adrs| && adrs[k] == b;
    assert b[0] == a[0] - 1 && b[1..] == a[1..];
    assert After(adrs)[k] == [a[0]] + a[1..] == a;
  }

  function Under(adrs: seq<seq<nat>>): seq<seq<nat>> {
    seq(|adrs|, k requires 0 <= k < |adrs| => [0] + adrs[k])
  }

  function After(adrs: seq<seq<nat>>): seq<seq<nat>>
    requires forall k :: 0 <= k < |adrs| ==> adrs[k] != []
  {
    seq(|adrs|, k requires 0 <= k < |adrs| => [adrs[k][0] + 1] + adrs[k][1..])
  }
}