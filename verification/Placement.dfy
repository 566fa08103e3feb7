/** The failure-domain tree stored as one JSON map under /config/node_placement,
    and the fold that merges a node's host and datacenter entries into it. */
module Placement {

  datatype Option<+T> = None | Some(value: T)

  datatype Entry = Entry(level: string, parent: string)

  type Tree = map<string, Entry>

  /** One Kubernetes node label. A pass sees them in the order of a Go map iteration. */
  datatype Label = Label(key: string, value: string)

  const FD_PREFIX := "fd.vitastor.io"

  // ---------------------------------------------------------------- the fold

  /** strings.Contains */
  predicate HasSubstring(s: string, part: string) {
    exists i :: 0 <= i <= |s| - |part| && PartAt(s, part, i)
  }

  predicate PartAt(s: string, part: string, i: nat)
    requires i <= |s| - |part|
  {
    s[i..i + |part|] == part
  }

  function IndexOf(s: string, c: char): (i: nat)
    ensures i <= |s| && c !in s[..i] && (i < |s| ==> s[i] == c)
  {
    if s == "" || s[0] == c then 0 else
      var i := 1 + IndexOf(s[1..], c);
      assert s[..i] == [s[0]] + s[1..][..i - 1];
      i
  }

  /** strings.Split(s, "/")[1]; None where that index is out of range. */
  function SecondField(s: string): Option<string> {
    var i := IndexOf(s, '/');
    if i == |s| then None
    else
      var rest := s[i + 1..];
      Some(rest[..IndexOf(rest, '/')])
  }

  predicate IsDomainLabel(l: Label) {
    HasSubstring(l.key, FD_PREFIX)
  }

  datatype LabelKind = Other | NoSlash | Domain

  /** What one label means to the loop; NoSlash makes the pass panic. */
  function Kind(l: Label): LabelKind {
    if !IsDomainLabel(l) then Other
    else match SecondField(l.key)
      case None => NoSlash
      case Some(field) => if field == "dc" then Domain else Other
  }

  predicate Malformed(l: Label) {
    Kind(l) == NoSlash
  }

  predicate Matches(l: Label) {
    Kind(l) == Domain
  }

  /** The values of the matching labels, in iteration order. */
  function Domains(labels: seq<Label>): seq<string> {
    if labels == [] then []
    else
      var l := labels[|labels| - 1];
      Domains(labels[..|labels| - 1]) + (if Matches(l) then [l.value] else [])
  }

  function HostEntry(domains: seq<string>): Entry {
    Entry("host", if domains == [] then "" else domains[|domains| - 1])
  }

  /** What the label loop leaves behind, entry by entry: the host is overwritten, an
      entry already under a domain's name is kept, a missing one becomes a datacenter. */
  function WithHost(t: Tree, host: string, domains: seq<string>): Tree {
    map k | k in t.Keys + {host} + (set d | d in domains) ::
      if k == host then HostEntry(domains) else if k in t then t[k] else Entry("dc", "")
  }

  function WithOsd(t: Tree, key: string, host: string): Tree {
    t[key := Entry("osd", host)]
  }

  /** None is the index-out-of-range panic of a label without a slash. */
  function HostTree(t: Tree, host: string, labels: seq<Label>): Option<Tree> {
    if exists i :: 0 <= i < |labels| && Malformed(labels[i]) then None
    else Some(WithHost(t, host, Domains(labels)))
  }

  /** The assignments one label causes. */
  function AddLabel(tree: Tree, host: string, l: Label): Tree {
    if !Matches(l) then tree
    else (if l.value in tree then tree else tree[l.value := Entry("dc", "")])[host := Entry("host", l.value)]
  }

  function AddLabels(t: Tree, host: string, labels: seq<Label>): Tree {
    if labels == [] then t[host := Entry("host", "")]
    else AddLabel(AddLabels(t, host, labels[..|labels| - 1]), host, labels[|labels| - 1])
  }

  lemma WithOneMore(t: Tree, host: string, domains: seq<string>, d: string)
    ensures var tree := WithHost(t, host, domains);
      WithHost(t, host, domains + [d])
      == (if d in tree then tree else tree[d := Entry("dc", "")])[host := Entry("host", d)]
  {
    assert forall k :: k in domains + [d] <==> k in domains || k == d;
  }

  lemma {:induction false} AddLabelsIsWithHost(t: Tree, host: string, labels: seq<Label>)
    ensures AddLabels(t, host, labels) == WithHost(t, host, Domains(labels))
  {
    if labels != [] {
      var init, l := labels[..|labels| - 1], labels[|labels| - 1];
      AddLabelsIsWithHost(t, host, init);
      WithOneMore(t, host, Domains(init), l.value);
      assert Domains(labels) == Domains(init) + if Matches(l) then [l.value] else [];
    }
  }

  lemma AddLabelsOneMore(t: Tree, host: string, labels: seq<Label>, i: nat)
    requires i < |labels|
    ensures AddLabels(t, host, labels[..i + 1]) == AddLabel(AddLabels(t, host, labels[..i]), host, labels[i])
  {
    assert labels[..i + 1][..i] == labels[..i];
  }

  method MergeLabel(tree: Tree, host: string, l: Label) returns (r: Option<Tree>)
    ensures r == if Malformed(l) then None else Some(AddLabel(tree, host, l))
  {
    r := Some(tree);
    if HasSubstring(l.key, FD_PREFIX) {
      var field := SecondField(l.key);
      if field.None? {
        return None;
      }
      if field.value == "dc" {
        var next := tree;
        if l.value !in next {
          next := next[l.value := Entry("dc", "")];
        }
        next := next[host := Entry("host", l.value)];
        r := Some(next);
      }
    }
  }

  /** The loop over the node's labels, updating the tree one label at a time. */
  method MergeLabels(t: Tree, host: string, labels: seq<Label>) returns (r: Option<Tree>)
    ensures r == HostTree(t, host, labels)
  {
    var tree := t[host := Entry("host", "")];
    for i := 0 to |labels|
      invariant forall j :: 0 <= j < i ==> !Malformed(labels[j])
      invariant tree == AddLabels(t, host, labels[..i])
    {
      AddLabelsOneMore(t, host, labels, i);
      var merged := MergeLabel(tree, host, labels[i]);
      if merged.None? {
        return None;
      }
      tree := merged.value;
    }
    assert labels[..|labels|] == labels;
    AddLabelsIsWithHost(t, host, labels);
    r := Some(tree);
  }

  lemma {:induction false} DomainsAreMatches(labels: seq<Label>, d: string)
    ensures d in Domains(labels) <==> exists l :: l in labels && Matches(l) && l.value == d
  {
    if labels != [] {
      var l := labels[|labels| - 1];
      DomainsAreMatches(labels[..|labels| - 1], d);
      assert forall x :: x in labels <==> x in labels[..|labels| - 1] || x == l;
    }
  }

  /** Exactly the matching values are added, whatever the iteration order; entries that
      exist are kept; the host's parent is one of the matching values, or empty when no
      label matches. */
  lemma LabelFold(t: Tree, host: string, labels: seq<Label>)
    requires HostTree(t, host, labels).Some?
    ensures var r := HostTree(t, host, labels).value;
      && (forall k :: k in r <==> k in t || k == host || exists l :: l in labels && Matches(l) && l.value == k)
      && (forall k :: k in r && k != host ==> r[k] == if k in t then t[k] else Entry("dc", ""))
      && host in r && r[host].level == "host"
      && ((exists l :: l in labels && Matches(l) && l.value == r[host].parent)
          || ((forall l :: l in labels ==> !Matches(l)) && r[host].parent == ""))
  {
    var r := HostTree(t, host, labels).value;
    var ds := Domains(labels);
    forall k ensures k in r <==> k in t || k == host || exists l :: l in labels && Matches(l) && l.value == k {
      DomainsAreMatches(labels, k);
    }
    if ds == [] {
      forall l | l in labels ensures !Matches(l) {
        DomainsAreMatches(labels, l.value);
      }
    } else {
      DomainsAreMatches(labels, ds[|ds| - 1]);
    }
  }

  lemma PanicDependsOnMembers(a: seq<Label>, b: seq<Label>, t: Tree, host: string)
    requires forall l :: l in a ==> l in b
    ensures HostTree(t, host, a).None? ==> HostTree(t, host, b).None?
  {
    if HostTree(t, host, a).None? {
      var i :| 0 <= i < |a| && Malformed(a[i]);
      assert a[i] in b;
    }
  }

  lemma DomainsDependOnMembers(a: seq<Label>, b: seq<Label>, d: string)
    requires forall l :: l in a ==> l in b
    requires d in Domains(a)
    ensures d in Domains(b)
  {
    DomainsAreMatches(a, d);
    DomainsAreMatches(b, d);
  }

  /** With at most one matching value the result does not depend on the iteration order. */
  lemma LabelOrderIrrelevant(t: Tree, host: string, a: seq<Label>, b: seq<Label>)
    requires forall l :: l in a <==> l in b
    requires OneDomainAtMost(a)
    ensures HostTree(t, host, a) == HostTree(t, host, b)
  {
    PanicDependsOnMembers(a, b, t, host);
    PanicDependsOnMembers(b, a, t, host);
    var da, db := Domains(a), Domains(b);
    forall d ensures d in da <==> d in db {
      if d in da { DomainsDependOnMembers(a, b, d); }
      if d in db { DomainsDependOnMembers(b, a, d); }
    }
    assert da != [] ==> da[|da| - 1] in db;
    assert db != [] ==> db[|db| - 1] in da;
    assert HostEntry(da) == HostEntry(db);
    assert WithHost(t, host, da) == WithHost(t, host, db);
  }

  lemma MoveToEnd<T>(a: seq<T>, i: nat) returns (b: seq<T>)
    requires i < |a|
    ensures multiset(b) == multiset(a) && b != [] && b[|b| - 1] == a[i]
  {
    b := a[..i] + a[i + 1..] + [a[i]];
    assert a == a[..i] + [a[i]] + a[i + 1..];
  }

  lemma LastDomain(labels: seq<Label>)
    requires labels != [] && Matches(labels[|labels| - 1])
    ensures HostEntry(Domains(labels)) == Entry("host", labels[|labels| - 1].value)
  {
  }

  lemma SameMembers<T>(a: seq<T>, b: seq<T>)
    requires multiset(a) == multiset(b)
    ensures forall x :: x in a <==> x in b
  {
    assert forall x :: x in a <==> x in multiset(a);
    assert forall x :: x in b <==> x in multiset(b);
  }

  /** Putting a matching label last gives the host that label's value as parent. */
  lemma {:induction false} LastMatchWins(t: Tree, host: string, a: seq<Label>, d: string) returns (b: seq<Label>)
    requires HostTree(t, host, a).Some? && d in Domains(a)
    ensures multiset(b) == multiset(a)
    ensures HostTree(t, host, b).Some? && HostTree(t, host, b).value[host] == Entry("host", d)
  {
    DomainsAreMatches(a, d);
    var i :| 0 <= i < |a| && Matches(a[i]) && a[i].value == d;
    b := MoveToEnd(a, i);
    SameMembers(a, b);
    PanicDependsOnMembers(b, a, t, host);
    LastDomain(b);
  }

  predicate OneDomainAtMost(labels: seq<Label>) {
    forall d, e :: d in Domains(labels) && e in Domains(labels) ==> d == e
  }

  /** The iteration order makes no difference exactly when at most one value matches, or a
      malformed label makes every order panic. */
  lemma OrderIrrelevantIffOneDomain(t: Tree, host: string, a: seq<Label>)
    ensures (forall b :: multiset(b) == multiset(a) ==> HostTree(t, host, b) == HostTree(t, host, a))
      <==> HostTree(t, host, a).None? || OneDomainAtMost(a)
  {
    if HostTree(t, host, a).None? || OneDomainAtMost(a) {
      forall b | multiset(b) == multiset(a) ensures HostTree(t, host, b) == HostTree(t, host, a) {
        SameMembers(a, b);
        if OneDomainAtMost(a) {
          LabelOrderIrrelevant(t, host, a, b);
        } else {
          PanicDependsOnMembers(a, b, t, host);
        }
      }
    } else {
      var d, e :| d in Domains(a) && e in Domains(a) && d != e;
      var b := LastMatchWins(t, host, a, d);
      var c := LastMatchWins(t, host, a, e);
      assert HostTree(t, host, b) != HostTree(t, host, c);
    }
  }
}
