/** Passes of different nodes commute on the shared placement map. */
module MergeOrder {
  import opened Placement
  import opened Api
  import opened NodePass
  import opened NodeEffects
  import opened NodeRuns
  import PassResults

  /** What one node contributes to the map. */
  datatype Share = Share(host: string, domains: seq<string>, report: seq<OSDPartition>)

  predicate Owns(s: Share, key: string) {
    key == s.host || HasKey(s.report, key)
  }

  function OwnEntry(s: Share, key: string): Entry {
    if HasKey(s.report, key) then Entry("osd", s.host) else HostEntry(s.domains)
  }

  function AddShare(t: Tree, s: Share): Tree {
    WithOsds(WithHost(t, s.host, s.domains), s.host, s.report)
  }

  function AddShares(t: Tree, shares: seq<Share>): Tree {
    if shares == [] then t else AddShare(AddShares(t, shares[..|shares| - 1]), shares[|shares| - 1])
  }

  ghost predicate Mentioned(shares: seq<Share>, key: string) {
    exists i :: 0 <= i < |shares| && (Owns(shares[i], key) || key in shares[i].domains)
  }

  /** Different nodes have different names and no OSD number in common. */
  ghost predicate Disjoint(shares: seq<Share>) {
    forall i, j, key :: 0 <= i < |shares| && 0 <= j < |shares| && Owns(shares[i], key) && Owns(shares[j], key) ==>
      shares[i] == shares[j]
  }

  /** Entry by entry: a key that some share owns has that share's entry; another key keeps
      its entry, or becomes a datacenter if some share names it as one. */
  ghost predicate IsEntryOf(r: Tree, t: Tree, shares: seq<Share>, key: string) {
    && (key in r <==> key in t || Mentioned(shares, key))
    && (forall i :: 0 <= i < |shares| && Owns(shares[i], key) ==> key in r && r[key] == OwnEntry(shares[i], key))
    && ((forall i :: 0 <= i < |shares| ==> !Owns(shares[i], key)) && key in r ==>
          r[key] == if key in t then t[key] else Entry("dc", ""))
  }

  lemma OneShare(t: Tree, s: Share, key: string)
    ensures var r := AddShare(t, s);
      && (key in r <==> key in t || Owns(s, key) || key in s.domains)
      && (key in r ==>
            r[key] == if Owns(s, key) then OwnEntry(s, key) else if key in t then t[key] else Entry("dc", ""))
  {
    WithOsdsIsMerge(WithHost(t, s.host, s.domains), s.host, s.report, key);
  }

  lemma {:induction false} SharesEntry(t: Tree, shares: seq<Share>, key: string)
    requires Disjoint(shares)
    ensures IsEntryOf(AddShares(t, shares), t, shares, key)
  {
    if shares != [] {
      var n := |shares| - 1;
      var init, s := shares[..n], shares[n];
      assert forall i :: 0 <= i < n ==> init[i] == shares[i];
      SharesEntry(t, init, key);
      var mid := AddShares(t, init);
      OneShare(mid, s, key);
      MentionedOneMore(shares, key);
    }
  }

  lemma MentionedOneMore(shares: seq<Share>, key: string)
    requires shares != []
    ensures var init, s := shares[..|shares| - 1], shares[|shares| - 1];
      Mentioned(shares, key) <==> Mentioned(init, key) || Owns(s, key) || key in s.domains
  {
    var n := |shares| - 1;
    var init := shares[..n];
    if i :| 0 <= i < n && (Owns(init[i], key) || key in init[i].domains) {
      assert Owns(shares[i], key) || key in shares[i].domains;
    }
    if i :| 0 <= i < |shares| && (Owns(shares[i], key) || key in shares[i].domains) && i < n {
      assert Owns(init[i], key) || key in init[i].domains;
    }
  }

  /** Any order, and any repetition, of the same nodes' contributions gives the same map. */
  lemma ShareOrderIrrelevant(t: Tree, a: seq<Share>, b: seq<Share>)
    requires Disjoint(a) && Disjoint(b) && forall s :: s in a <==> s in b
    ensures AddShares(t, a) == AddShares(t, b)
  {
    var ra, rb := AddShares(t, a), AddShares(t, b);
    forall key ensures (key in ra <==> key in rb) && (key in ra ==> ra[key] == rb[key]) {
      SharesEntry(t, a, key);
      SharesEntry(t, b, key);
      SameEntry(t, ra, rb, a, b, key);
    }
  }

  ghost predicate Owned(shares: seq<Share>, key: string) {
    exists i :: 0 <= i < |shares| && Owns(shares[i], key)
  }

  lemma MentionedIn(a: seq<Share>, b: seq<Share>, key: string)
    requires forall s :: s in a ==> s in b
    ensures Mentioned(a, key) ==> Mentioned(b, key)
    ensures Owned(a, key) ==> Owned(b, key)
  {
    if i :| 0 <= i < |a| && (Owns(a[i], key) || key in a[i].domains) {
      assert a[i] in b;
      var j :| 0 <= j < |b| && b[j] == a[i];
    }
    if i :| 0 <= i < |a| && Owns(a[i], key) {
      assert a[i] in b;
      var j :| 0 <= j < |b| && b[j] == a[i];
    }
  }

  lemma SameOwner(a: seq<Share>, b: seq<Share>, key: string) returns (i: nat, j: nat)
    requires (forall s :: s in a ==> s in b) && Owned(a, key)
    ensures i < |a| && j < |b| && a[i] == b[j] && Owns(a[i], key)
  {
    i :| 0 <= i < |a| && Owns(a[i], key);
    assert a[i] in b;
    j :| 0 <= j < |b| && b[j] == a[i];
  }

  lemma SameEntry(t: Tree, ra: Tree, rb: Tree, a: seq<Share>, b: seq<Share>, key: string)
    requires forall s :: s in a <==> s in b
    requires IsEntryOf(ra, t, a, key) && IsEntryOf(rb, t, b, key)
    ensures (key in ra <==> key in rb) && (key in ra ==> ra[key] == rb[key])
  {
    MentionedIn(a, b, key);
    MentionedIn(b, a, key);
    if Owned(a, key) {
      var i, j := SameOwner(a, b, key);
    }
  }

  // -------------------------------------------------------------- runs of passes

  function ShareOf(v: Visit): Share {
    Share(v.req, if v.answers.labels.Some? then Domains(v.answers.labels.value) else [],
          if v.answers.agent.Agent? then v.answers.agent.osds else [])
  }

  function SharesOf(vs: seq<Visit>): seq<Share> {
    seq(|vs|, i requires 0 <= i < |vs| => ShareOf(vs[i]))
  }

  /** Each pass of the run ends without an error. */
  ghost predicate AllEndWell(w: World, vs: seq<Visit>)
    decreases |vs|
  {
    vs == [] || (EndsWell(VisitEnd(vs[0], w).0) && AllEndWell(VisitEnd(vs[0], w).1, vs[1..]))
  }

  lemma VisitAddsShare(v: Visit, w: World)
    requires Keyed(w) && NamedAlike(w.nodes)
    requires EndsWell(VisitEnd(v, w).0)
    ensures var w' := VisitEnd(v, w).1;
      TreeOf(w') == AddShare(TreeOf(w), ShareOf(v)) && Keyed(w') && NamedAlike(w'.nodes)
  {
    PassResults.VisitRan(v, w);
    PassResults.PassIsOneMerge(v.calls, v.req, v.answers, w);
    PassResults.PassIsSafe(v.calls, v.req, v.answers, w);
    var c := Context(w.nodes[v.req], v.answers);
    assert c.Report()[..|c.Report()|] == c.Report();
  }

  lemma OneMoreShare(t: Tree, done: seq<Share>, s: Share)
    ensures AddShares(t, done + [s]) == AddShare(AddShares(t, done), s)
  {
    assert (done + [s])[..|done|] == done;
  }

  lemma SharesOfRest(done: seq<Share>, vs: seq<Visit>)
    requires vs != []
    ensures done + [ShareOf(vs[0])] + SharesOf(vs[1..]) == done + SharesOf(vs)
  {
    assert SharesOf(vs) == [ShareOf(vs[0])] + SharesOf(vs[1..]);
  }

  lemma {:induction false} VisitsAddShares(w: World, vs: seq<Visit>, done: seq<Share>, t: Tree)
    requires Keyed(w) && NamedAlike(w.nodes) && AllEndWell(w, vs) && TreeOf(w) == AddShares(t, done)
    ensures TreeOf(Visits(w, vs)) == AddShares(t, done + SharesOf(vs))
    decreases |vs|
  {
    if vs == [] {
      assert done + SharesOf(vs) == done;
    } else {
      VisitAddsShare(vs[0], w);
      var more := done + [ShareOf(vs[0])];
      OneMoreShare(t, done, ShareOf(vs[0]));
      VisitsAddShares(VisitEnd(vs[0], w).1, vs[1..], more, t);
      SharesOfRest(done, vs);
    }
  }

  // ------------------------------------------------------------- other label orders

  /** Shares that differ only in the order in which the labels were met. */
  ghost predicate IsAlike(s: Share, r: Share) {
    && s.host == r.host && s.report == r.report
    && (forall d :: d in s.domains <==> d in r.domains) && HostEntry(s.domains) == HostEntry(r.domains)
  }

  lemma AlikeAddsTheSame(t: Tree, s: Share, r: Share)
    requires IsAlike(s, r)
    ensures AddShare(t, s) == AddShare(t, r)
  {
    assert WithHost(t, s.host, s.domains) == WithHost(t, r.host, r.domains);
  }

  lemma {:induction false} AlikeAddTheSame(t: Tree, a: seq<Share>, b: seq<Share>)
    requires |a| == |b| && forall i :: 0 <= i < |a| ==> IsAlike(a[i], b[i])
    ensures AddShares(t, a) == AddShares(t, b)
  {
    if a != [] {
      var n := |a| - 1;
      AlikeAddTheSame(t, a[..n], b[..n]);
      AlikeAddsTheSame(AddShares(t, a[..n]), a[n], b[n]);
    }
  }

  /** Two passes of one node with the same report and the same labels, met in any order. */
  ghost predicate SameView(u: Visit, v: Visit) {
    && u.req == v.req && ShareOf(u).report == ShareOf(v).report
    && (u.answers.labels.Some? <==> v.answers.labels.Some?)
    && (u.answers.labels.Some? ==> multiset(u.answers.labels.value) == multiset(v.answers.labels.value))
  }

  lemma SameViewIsAlike(u: Visit, v: Visit)
    requires SameView(u, v) && (v.answers.labels.Some? ==> OneDomainAtMost(v.answers.labels.value))
    ensures IsAlike(ShareOf(u), ShareOf(v))
  {
    if v.answers.labels.Some? {
      var a, b := u.answers.labels.value, v.answers.labels.value;
      SameMembers(a, b);
      SameDomains(a, b);
    }
  }

  lemma SameDomains(a: seq<Label>, b: seq<Label>)
    requires (forall l :: l in a <==> l in b) && OneDomainAtMost(b)
    ensures (forall d :: d in Domains(a) <==> d in Domains(b)) && HostEntry(Domains(a)) == HostEntry(Domains(b))
  {
    var da, db := Domains(a), Domains(b);
    forall d ensures d in da <==> d in db {
      if d in da { DomainsDependOnMembers(a, b, d); }
      if d in db { DomainsDependOnMembers(b, a, d); }
    }
    assert da != [] ==> da[|da| - 1] in db;
    assert db != [] ==> db[|db| - 1] in da;
  }

  ghost predicate IsViewed(u: Visit, vs: seq<Visit>) {
    exists i :: 0 <= i < |vs| && SameView(u, vs[i])
  }

  /** Each of these passes has one with the same view among those. */
  ghost predicate AllViewed(us: seq<Visit>, vs: seq<Visit>) {
    forall u {:trigger IsViewed(u, vs)} :: u in us ==> IsViewed(u, vs)
  }

  ghost function Twin(u: Visit, vs: seq<Visit>): (v: Visit)
    requires IsViewed(u, vs)
    ensures v in vs && SameView(u, v)
  {
    var i :| 0 <= i < |vs| && SameView(u, vs[i]);
    vs[i]
  }

  ghost function Twins(us: seq<Visit>, vs: seq<Visit>): seq<Share>
    requires AllViewed(us, vs)
  {
    seq(|us|, i requires 0 <= i < |us| => assert IsViewed(us[i], vs); ShareOf(Twin(us[i], vs)))
  }

  lemma ShareIsIn(vs: seq<Visit>, v: Visit)
    requires v in vs
    ensures ShareOf(v) in SharesOf(vs)
  {
    var j :| 0 <= j < |vs| && vs[j] == v;
    assert SharesOf(vs)[j] == ShareOf(v);
  }

  lemma SharedKey(vs: seq<Visit>, v: Visit, v': Visit)
    requires Disjoint(SharesOf(vs)) && v in vs && v' in vs && v.req == v'.req
    ensures ShareOf(v) == ShareOf(v')
  {
    var shares := SharesOf(vs);
    var i, j :| 0 <= i < |vs| && 0 <= j < |vs| && vs[i] == v && vs[j] == v';
    assert Owns(shares[i], v.req) && Owns(shares[j], v.req);
  }

  lemma TwinIsAShare(us: seq<Visit>, vs: seq<Visit>, i: nat)
    requires AllViewed(us, vs) && i < |us|
    ensures Twins(us, vs)[i] in SharesOf(vs)
  {
    assert IsViewed(us[i], vs);
    ShareIsIn(vs, Twin(us[i], vs));
  }

  lemma ShareIsATwin(us: seq<Visit>, vs: seq<Visit>, j: nat)
    requires Disjoint(SharesOf(vs)) && AllViewed(us, vs) && AllViewed(vs, us) && j < |vs|
    ensures SharesOf(vs)[j] in Twins(us, vs)
  {
    assert IsViewed(vs[j], us);
    var i :| 0 <= i < |us| && SameView(vs[j], us[i]);
    assert IsViewed(us[i], vs);
    SharedKey(vs, Twin(us[i], vs), vs[j]);
    assert Twins(us, vs)[i] == SharesOf(vs)[j];
  }

  lemma DisjointWithin(a: seq<Share>, b: seq<Share>)
    requires Disjoint(b) && forall i :: 0 <= i < |a| ==> a[i] in b
    ensures Disjoint(a)
  {
    forall i, j, key | 0 <= i < |a| && 0 <= j < |a| && Owns(a[i], key) && Owns(a[j], key) ensures a[i] == a[j] {
      var k, l :| 0 <= k < |b| && 0 <= l < |b| && b[k] == a[i] && b[l] == a[j];
    }
  }

  /** Two runs of error-free passes over the same nodes, in whatever order and however
      often each, and with the labels of a node met in whatever order, leave the same
      placement map. Each node has one matching value at most: with two, the order of its
      own labels decides (Placement.OrderIrrelevantIffOneDomain). */
  lemma {:induction false} PassOrderIrrelevant(w: World, vs: seq<Visit>, us: seq<Visit>)
    requires Keyed(w) && NamedAlike(w.nodes) && AllEndWell(w, vs) && AllEndWell(w, us)
    requires Disjoint(SharesOf(vs))
    requires forall v :: v in vs && v.answers.labels.Some? ==> OneDomainAtMost(v.answers.labels.value)
    requires AllViewed(us, vs) && AllViewed(vs, us)
    ensures TreeOf(Visits(w, vs)) == TreeOf(Visits(w, us))
  {
    var twins := Twins(us, vs);
    VisitsAddShares(w, vs, [], TreeOf(w));
    VisitsAddShares(w, us, [], TreeOf(w));
    assert [] + SharesOf(vs) == SharesOf(vs) && [] + SharesOf(us) == SharesOf(us);
    forall i | 0 <= i < |us| ensures IsAlike(SharesOf(us)[i], twins[i]) && twins[i] in SharesOf(vs) {
      assert IsViewed(us[i], vs);
      SameViewIsAlike(us[i], Twin(us[i], vs));
      TwinIsAShare(us, vs, i);
    }
    forall j | 0 <= j < |vs| ensures SharesOf(vs)[j] in twins {
      ShareIsATwin(us, vs, j);
    }
    DisjointWithin(twins, SharesOf(vs));
    AlikeAddTheSame(TreeOf(w), SharesOf(us), twins);
    ShareOrderIrrelevant(TreeOf(w), SharesOf(vs), twins);
  }
}
