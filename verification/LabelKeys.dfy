/** What the label loop makes of a key, in terms of the key's text. */
module LabelKeys {
  import opened Placement
  import Forest

  // ------------------------------------------------------------ parts of a string

  ghost predicate Contains(s: string, part: string) {
    exists a, b :: s == a + part + b
  }

  /** Searching by position finds a part exactly when the string is that part with something
      before and after it. */
  lemma SubstringIffContains(s: string, part: string)
    ensures HasSubstring(s, part) <==> Contains(s, part)
  {
    if HasSubstring(s, part) {
      var i :| 0 <= i <= |s| - |part| && PartAt(s, part, i);
      assert s == s[..i] + part + s[i + |part|..];
    }
    if Contains(s, part) {
      var a, b :| s == a + part + b;
      assert PartAt(s, part, |a|);
    }
  }

  /** The string is split at its first slash and at the next one, if any: a, f, and the rest. */
  predicate IsSplit(s: string, a: string, f: string, r: string) {
    s == a + "/" + f + r && '/' !in a && '/' !in f && (r == "" || r[0] == '/')
  }

  ghost predicate IsSecondField(s: string, f: string) {
    exists a, r :: IsSplit(s, a, f, r)
  }

  lemma IndexIsFirst(s: string, i: nat)
    requires i <= |s| && '/' !in s[..i] && (i < |s| ==> s[i] == '/')
    ensures IndexOf(s, '/') == i
  {
  }

  lemma SecondFieldOf(s: string, a: string, f: string, r: string)
    requires IsSplit(s, a, f, r)
    ensures SecondField(s) == Some(f)
  {
    assert s[..|a|] == a && s[|a|] == '/' && s[|a| + 1..] == f + r;
    IndexIsFirst(s, |a|);
    assert (f + r)[..|f|] == f;
    IndexIsFirst(f + r, |f|);
  }

  /** A string cut at an index, and the second piece cut once more. */
  lemma CutTwice(s: string, i: nat, j: nat) returns (a: string, f: string, r: string)
    requires i < |s| && s[i] == '/' && j < |s| - i
    ensures a == s[..i] && f == s[i + 1..][..j] && r == s[i + 1..][j..]
    ensures s == a + "/" + f + r
  {
    a, f, r := s[..i], s[i + 1..][..j], s[i + 1..][j..];
  }

  lemma SplitOf(s: string) returns (a: string, f: string, r: string)
    requires SecondField(s).Some?
    ensures IsSplit(s, a, f, r) && SecondField(s) == Some(f)
  {
    var i := IndexOf(s, '/');
    a, f, r := CutTwice(s, i, IndexOf(s[i + 1..], '/'));
  }

  /** Splitting at slashes and taking the second piece, for keys with any number of slashes. */
  lemma SecondFieldIff(s: string, f: string)
    ensures SecondField(s) == Some(f) <==> IsSecondField(s, f)
    ensures SecondField(s).None? <==> '/' !in s
  {
    var i := IndexOf(s, '/');
    assert i == |s| ==> s[..i] == s;
    if SecondField(s).Some? {
      var a, g, r := SplitOf(s);
    }
    if a, r :| IsSplit(s, a, f, r) {
      SecondFieldOf(s, a, f, r);
    }
  }

  // -------------------------------------------------------------------- the keys

  /** A label is ignored unless its key contains the prefix; then a key without a slash makes
      the pass panic, one whose second field is dc names a datacenter, others are ignored. */
  lemma KindIs(l: Label)
    ensures Kind(l) ==
      if !Contains(l.key, "fd.vitastor.io") then Other
      else if '/' !in l.key then NoSlash
      else if IsSecondField(l.key, "dc") then Domain else Other
  {
    SubstringIffContains(l.key, FD_PREFIX);
    SecondFieldIff(l.key, "dc");
  }

  /** The key the documentation gives is heeded; the one that marks storage nodes, and a dc
      key of somebody else, are not. */
  lemma KeysExample(v: string)
    ensures Matches(Label("fd.vitastor.io/dc", v))
    ensures Kind(Label("vitastor-node", v)) == Other && Kind(Label("example.com/dc", v)) == Other
  {
    DocumentedKey(v);
    ShortKey(Label("vitastor-node", v));
    OtherDomain(v);
  }

  lemma DocumentedKey(v: string)
    ensures Matches(Label("fd.vitastor.io/dc", v))
  {
    var key := "fd.vitastor.io/dc";
    assert key == FD_PREFIX + "/" + "dc";
    Forest.OnlyDcKeysMatch(Label(key, v), "dc");
  }

  lemma ShortKey(l: Label)
    requires |l.key| < 14
    ensures Kind(l) == Other
  {
  }

  lemma OtherDomain(v: string)
    ensures Kind(Label("example.com/dc", v)) == Other
  {
    var key := "example.com/dc";
    assert key[0] == 'e' && FD_PREFIX[0] == 'f';
    forall i | 0 <= i <= |key| - |FD_PREFIX| ensures !PartAt(key, FD_PREFIX, i) {
      assert key[i..i + |FD_PREFIX|][0] == key[0];
    }
  }

  // ----------------------------------------------------------- labels of no concern

  lemma {:induction false} NoDomains(labels: seq<Label>)
    requires forall i :: 0 <= i < |labels| ==> Kind(labels[i]) == Other
    ensures Domains(labels) == []
  {
    if labels != [] {
      NoDomains(labels[..|labels| - 1]);
    }
  }

  /** Labels whose keys do not contain the prefix change nothing: the host has no parent, no
      datacenter is added. */
  lemma OtherLabelsAreIgnored(t: Tree, host: string, labels: seq<Label>)
    requires forall i :: 0 <= i < |labels| ==> !Contains(labels[i].key, "fd.vitastor.io")
    ensures HostTree(t, host, labels) == Some(t[host := Entry("host", "")])
  {
    forall i | 0 <= i < |labels| ensures Kind(labels[i]) == Other {
      KindIs(labels[i]);
    }
    NoDomains(labels);
    assert WithHost(t, host, []) == t[host := Entry("host", "")];
  }
}
