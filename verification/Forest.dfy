/** The placement tree as a forest: every parent exists and sits on a level with a
    strictly smaller number. */
module Forest {
  import opened Placement

  type Levels = map<string, int>

  /** The level table the cluster controller writes under /config/placement_levels. */
  const LEVELS: Levels := map["dc" := 99, "host" := 100, "osd" := 101]

  /** A level table that gives the operator's own levels their numbers; it may know more. */
  predicate Extends(levels: Levels) {
    forall l :: l in LEVELS ==> l in levels && levels[l] == LEVELS[l]
  }

  predicate Fits(t: Tree, levels: Levels, e: Entry) {
    && e.level in levels
    && (e.parent == "" ||
        (e.parent in t && t[e.parent].level in levels && levels[t[e.parent].level] < levels[e.level]))
  }

  ghost predicate IsForest(t: Tree, levels: Levels) {
    forall k :: k in t ==> Fits(t, levels, t[k])
  }

  // ------------------------------------------------------------ what it means

  /** A walk from an entry to its parent, its parent's parent and so on. */
  ghost predicate IsClimb(t: Tree, ks: seq<string>) {
    && (forall i :: 0 <= i < |ks| ==> ks[i] in t)
    && (forall i :: 0 < i < |ks| ==> ks[i] != "" && ks[i] == t[ks[i - 1]].parent)
  }

  lemma {:induction false} ClimbDescends(t: Tree, levels: Levels, ks: seq<string>, i: nat, j: nat)
    requires IsForest(t, levels) && IsClimb(t, ks) && i < j < |ks|
    ensures t[ks[i]].level in levels && t[ks[j]].level in levels
    ensures levels[t[ks[j]].level] <= levels[t[ks[i]].level] - (j - i)
  {
    assert Fits(t, levels, t[ks[j - 1]]);
    if i < j - 1 {
      ClimbDescends(t, levels, ks, i, j - 1);
    }
  }

  /** No climb meets an entry twice: the tree has no cycle. */
  lemma ForestIsAcyclic(t: Tree, levels: Levels, ks: seq<string>, i: nat, j: nat)
    requires IsForest(t, levels) && IsClimb(t, ks) && i < j < |ks|
    ensures ks[i] != ks[j]
  {
    ClimbDescends(t, levels, ks, i, j);
  }

  /** With the operator's own level table no climb visits more than three entries. */
  lemma ForestIsShallow(t: Tree, ks: seq<string>)
    requires IsForest(t, LEVELS) && IsClimb(t, ks)
    ensures |ks| <= 3
  {
    if |ks| > 3 {
      ClimbDescends(t, LEVELS, ks, 0, 3);
    }
  }

  // -------------------------------------------------- when one write keeps it

  /** Overwriting entry k leaves every entry below k above the new level number. */
  ghost predicate ChildrenStayBelow(t: Tree, levels: Levels, k: string, level: string)
    requires level in levels
  {
    forall c :: c in t && c != k && k != "" && t[c].parent == k ==>
      t[c].level in levels && levels[level] < levels[t[c].level]
  }

  /** What a host write needs of the stored tree and of the node's labels: the last
      matching value must not be the node's own name nor the name of an entry at or below
      the host level, and the entries under the node's name must be below it. */
  ghost predicate HostFits(t: Tree, levels: Levels, host: string, domains: seq<string>)
    requires Extends(levels)
  {
    var parent := HostEntry(domains).parent;
    && (parent == "" || (parent != host &&
         (parent in t ==> t[parent].level in levels && levels[t[parent].level] < 100)))
    && ChildrenStayBelow(t, levels, host, "host")
  }

  /** The first write of a pass keeps the forest exactly when HostFits. */
  lemma HostWriteKeepsForest(t: Tree, levels: Levels, host: string, domains: seq<string>)
    requires Extends(levels) && IsForest(t, levels)
    ensures IsForest(WithHost(t, host, domains), levels) <==> HostFits(t, levels, host, domains)
  {
    var r := WithHost(t, host, domains);
    var parent := HostEntry(domains).parent;
    assert parent != "" ==> parent in r;
    if HostFits(t, levels, host, domains) {
      forall k | k in r ensures Fits(r, levels, r[k]) {
        if k != host && k in t {
          assert Fits(t, levels, t[k]);
        }
      }
    }
    if IsForest(r, levels) {
      assert Fits(r, levels, r[host]);
      forall c | c in t && c != host && host != "" && t[c].parent == host
        ensures t[c].level in levels && levels["host"] < levels[t[c].level]
      {
        assert Fits(r, levels, r[c]);
      }
    }
  }

  ghost predicate OsdFits(t: Tree, levels: Levels, key: string, host: string)
    requires Extends(levels)
  {
    && (host == "" || (host != key && host in t && t[host].level in levels && levels[t[host].level] < 101))
    && ChildrenStayBelow(t, levels, key, "osd")
  }

  /** An OSD write keeps the forest exactly when OsdFits. */
  lemma OsdWriteKeepsForest(t: Tree, levels: Levels, key: string, host: string)
    requires Extends(levels) && IsForest(t, levels)
    ensures IsForest(WithOsd(t, key, host), levels) <==> OsdFits(t, levels, key, host)
  {
    var r := WithOsd(t, key, host);
    if OsdFits(t, levels, key, host) {
      forall k | k in r ensures Fits(r, levels, r[k]) {
        if k != key {
          assert Fits(t, levels, t[k]);
        }
      }
    }
    if IsForest(r, levels) {
      assert Fits(r, levels, r[key]);
      forall c | c in t && c != key && key != "" && t[c].parent == key
        ensures t[c].level in levels && levels["osd"] < levels[t[c].level]
      {
        assert Fits(r, levels, r[c]);
      }
    }
  }

  lemma {:induction false} FirstSlash(prefix: string, rest: string)
    requires '/' !in prefix
    ensures IndexOf(prefix + "/" + rest, '/') == |prefix|
  {
    var key := prefix + "/" + rest;
    if prefix == "" {
      assert key[0] == '/';
    } else {
      assert key[0] == prefix[0] && key[1..] == prefix[1..] + "/" + rest;
      FirstSlash(prefix[1..], rest);
    }
  }

  lemma FieldAfterSlash(prefix: string, rest: string)
    requires '/' !in prefix && '/' !in rest
    ensures SecondField(prefix + "/" + rest) == Some(rest)
  {
    var key := prefix + "/" + rest;
    FirstSlash(prefix, rest);
    assert key[|prefix| + 1..] == rest;
    var i := IndexOf(rest, '/');
    assert i == |rest| && rest[..i] == rest;
  }

  lemma PrefixHasNoSlash()
    ensures '/' !in FD_PREFIX
  {
    assert FD_PREFIX == ['f', 'd', '.', 'v', 'i', 't', 'a', 's', 't', 'o', 'r', '.', 'i', 'o'];
  }

  lemma KeyHasPrefix(prefix: string, rest: string)
    ensures HasSubstring(prefix + "/" + rest, prefix)
  {
    assert PartAt(prefix + "/" + rest, prefix, 0);
  }

  /** Of the label keys the documentation offers, one a placement level, the pass heeds
      the one for datacenters and ignores the others. */
  lemma OnlyDcKeysMatch(l: Label, level: string)
    requires l.key == FD_PREFIX + "/" + level && '/' !in level
    ensures Kind(l) == if level == "dc" then Domain else Other
  {
    PrefixHasNoSlash();
    FieldAfterSlash(FD_PREFIX, level);
    KeyHasPrefix(FD_PREFIX, level);
  }

  lemma OneDomain(l: Label)
    requires Matches(l)
    ensures Domains([l]) == [l.value]
  {
    assert [l][..0] == [] && Domains([]) == [];
  }

  /** The condition is not always met: a node labelled with its own name becomes its own
      parent. */
  lemma OwnNameAsDomainMakesACycle(t: Tree, l: Label)
    requires Matches(l) && l.value != ""
    ensures HostTree(t, l.value, [l]).Some?
    ensures IsClimb(HostTree(t, l.value, [l]).value, [l.value, l.value])
  {
    OneDomain(l);
    assert WithHost(t, l.value, [l.value])[l.value] == Entry("host", l.value);
  }
}
