/** From every idle state the operator has a thorough stretch: the theorem about coming to
    rest is about something. */
module ThoroughRuns {
  import opened Api
  import opened OsdPlan
  import opened Settling
  import opened Operator
  import opened OperatorRuns
  import opened OperatorProgress
  import opened ReachingRest
  import opened FairRuns
  import O = OsdController

  // ---------------------------------------------------- one stretch after another

  lemma {:induction false} StretchesJoin(es: seq<Event>, fs: seq<Event>, s: System, o: Owners)
    ensures var mid, between := RunEvents(es, s), RunOwners(es, s, o);
      && RunOwners(es + fs, s, o) == RunOwners(fs, mid, between)
      && (SetsAreLeftAlone(es + fs, s, o) <==> SetsAreLeftAlone(es, s, o) && SetsAreLeftAlone(fs, mid, between))
    decreases |es|
  {
    if es == [] {
      assert es + fs == fs;
    } else {
      EventsTail(es, fs);
      StretchesJoin(es[1..], fs, Next(es[0], s), NextOwners(es[0], s, o));
    }
  }

  lemma {:induction false} ServedInEither(es: seq<Event>, fs: seq<Event>, s: System, k: string)
    ensures IsServed(es + fs, s, k) <==> IsServed(es, s, k) || IsServed(fs, RunEvents(es, s), k)
    decreases |es|
  {
    if es == [] {
      assert es + fs == fs;
    } else {
      EventsTail(es, fs);
      ServedInEither(es[1..], fs, Next(es[0], s), k);
    }
  }

  lemma {:induction false} CollectedInEither(es: seq<Event>, fs: seq<Event>, s: System, k: string)
    ensures IsCollected(es + fs, s, k) <==> IsCollected(es, s, k) || IsCollected(fs, RunEvents(es, s), k)
    decreases |es|
  {
    if es == [] {
      assert es + fs == fs;
    } else {
      EventsTail(es, fs);
      CollectedInEither(es[1..], fs, Next(es[0], s), k);
    }
  }

  /** A state between passes of both object controllers. */
  ghost predicate IsIdle(s: System, o: Owners, plan: Plan) {
    && WellFormed(plan) && SystemFollows(s, plan) && IsSound(PairOf(s, o))
    && s.node.Done? && s.osd.Done?
  }

  // ------------------------------------------------------- collecting what is lost

  /** The garbage collector takes one StatefulSet. */
  function Collection(s: System, k: string): Event {
    Edit(s.w.(sets := s.w.sets - {k}))
  }

  lemma CollectionIs(s: System, k: string)
    ensures Next(Collection(s, k), s) == s.(w := s.w.(sets := s.w.sets - {k}))
  {
  }

  lemma CollectionFollows(s: System, o: Owners, plan: Plan, k: string)
    requires SystemFollows(s, plan) && k in o.lost
    ensures EventFollows(Collection(s, k), s, plan) && SetsAreLeft(Collection(s, k), s, o)
  {
  }

  lemma CollectionLoses(s: System, o: Owners, k: string)
    requires o.lost <= s.w.sets.Keys
    ensures NextOwners(Collection(s, k), s, o).lost == o.lost - {k}
  {
    CollectionIs(s, k);
    LostAfterCollect(PairOf(s, o), k);
  }

  lemma CollectOne(s: System, o: Owners, plan: Plan, k: string)
    requires IsIdle(s, o, plan) && k in o.lost
    ensures var e := Collection(s, k);
      && EventFollows(e, s, plan) && SetsAreLeft(e, s, o)
      && IsIdle(Next(e, s), NextOwners(e, s, o), plan) && NextOwners(e, s, o).lost == o.lost - {k}
  {
    CollectionFollows(s, o, plan, k);
    CollectionLoses(s, o, k);
    CollectionIs(s, k);
    EventPays(Collection(s, k), s, o, plan);
  }

  lemma CollectFirst(e: Event, rest: seq<Event>, s: System, o: Owners, plan: Plan, k: string)
    ensures var es := [e] + rest;
      && RunEvents(es, s) == RunEvents(rest, Next(e, s))
      && RunOwners(es, s, o) == RunOwners(rest, Next(e, s), NextOwners(e, s, o))
      && (EventsFollow(es, s, plan) <==> EventFollows(e, s, plan) && EventsFollow(rest, Next(e, s), plan))
      && (SetsAreLeftAlone(es, s, o) <==>
            SetsAreLeft(e, s, o) && SetsAreLeftAlone(rest, Next(e, s), NextOwners(e, s, o)))
      && (IsCollected(es, s, k) <==>
            (k in s.w.sets && k !in Next(e, s).w.sets) || IsCollected(rest, Next(e, s), k))
  {
    var es := [e] + rest;
    assert es[0] == e && es[1..] == rest;
  }

  lemma {:induction false} CollectAll(s: System, o: Owners, plan: Plan, names: set<string>) returns (es: seq<Event>)
    requires IsIdle(s, o, plan) && names <= o.lost
    ensures EventsFollow(es, s, plan) && SetsAreLeftAlone(es, s, o)
    ensures forall k :: k in names ==> IsCollected(es, s, k)
    ensures IsIdle(RunEvents(es, s), RunOwners(es, s, o), plan) && RunEvents(es, s).w.osds == s.w.osds
    decreases |names|
  {
    if names == {} {
      es := [];
    } else {
      var a :| a in names;
      var e := Collection(s, a);
      CollectOne(s, o, plan, a);
      CollectionIs(s, a);
      var rest := CollectAll(Next(e, s), NextOwners(e, s, o), plan, names - {a});
      es := [e] + rest;
      CollectFirst(e, rest, s, o, plan, a);
      forall k | k in names ensures IsCollected(es, s, k) {
        CollectFirst(e, rest, s, o, plan, k);
      }
    }
  }

  // ------------------------------------------------------- serving every VitastorOSD

  /** A whole pass of the OSD controller. */
  function OsdPass(k: string): seq<Event> {
    [OsdBegin(k), OsdStep, OsdStep, OsdStep]
  }

  lemma OsdStepGoesOn(s: System, o: Owners, plan: Plan)
    requires WellFormed(plan) && SystemFollows(s, plan) && IsSound(PairOf(s, o))
    ensures var s', o' := Next(OsdStep, s), NextOwners(OsdStep, s, o);
      && SystemFollows(s', plan) && IsSound(PairOf(s', o')) && s'.w.osds == s.w.osds && s'.node == s.node
      && (s.osd.Done? ==> s'.osd == s.osd)
  {
    EventPays(OsdStep, s, o, plan);
    OsdAndPoolFrame(s.osd, s.pool, s.w);
  }

  lemma PassOf(s: System, k: string)
    requires s.osd == O.Start(k) && k in s.w.osds && KeyedOsds(s.w.osds)
    ensures var s1 := Next(OsdStep, s); var s2 := Next(OsdStep, s1); var s3 := Next(OsdStep, s2);
      s3.osd.Done? && (Serves(OsdStep, s1, k) || Serves(OsdStep, s2, k))
  {
    var s1 := Next(OsdStep, s);
    assert s1.osd == O.GetSet(s.w.osds[k]);
  }

  lemma ServeOne(s: System, o: Owners, plan: Plan, k: string)
    requires IsIdle(s, o, plan) && k in s.w.osds
    ensures var es := OsdPass(k);
      && EventsFollow(es, s, plan) && SetsAreLeftAlone(es, s, o) && IsServed(es, s, k)
      && IsIdle(RunEvents(es, s), RunOwners(es, s, o), plan) && RunEvents(es, s).w.osds == s.w.osds
  {
    var s0, o0 := Next(OsdBegin(k), s), NextOwners(OsdBegin(k), s, o);
    EventPays(OsdBegin(k), s, o, plan);
    OsdStepGoesOn(s0, o0, plan);
    var s1, o1 := Next(OsdStep, s0), NextOwners(OsdStep, s0, o0);
    OsdStepGoesOn(s1, o1, plan);
    var s2, o2 := Next(OsdStep, s1), NextOwners(OsdStep, s1, o1);
    OsdStepGoesOn(s2, o2, plan);
    PassOf(s0, k);
    ThreeSteps(s0, o0, plan, k);
    var es := OsdPass(k);
    assert es[0] == OsdBegin(k) && es[1..] == [OsdStep, OsdStep, OsdStep];
  }

  lemma ThreeSteps(s: System, o: Owners, plan: Plan, k: string)
    ensures var es := [OsdStep, OsdStep, OsdStep];
      var s1, o1 := Next(OsdStep, s), NextOwners(OsdStep, s, o);
      var s2, o2 := Next(OsdStep, s1), NextOwners(OsdStep, s1, o1);
      && RunEvents(es, s) == Next(OsdStep, s2) && RunOwners(es, s, o) == NextOwners(OsdStep, s2, o2)
      && EventsFollow(es, s, plan) && SetsAreLeftAlone(es, s, o)
      && (IsServed(es, s, k) <==> Serves(OsdStep, s, k) || Serves(OsdStep, s1, k) || Serves(OsdStep, s2, k))
  {
    var es := [OsdStep, OsdStep, OsdStep];
    var s1, o1 := Next(OsdStep, s), NextOwners(OsdStep, s, o);
    var s2, o2 := Next(OsdStep, s1), NextOwners(OsdStep, s1, o1);
    var s3, o3 := Next(OsdStep, s2), NextOwners(OsdStep, s2, o2);
    assert es[1..] == [OsdStep, OsdStep] && [OsdStep, OsdStep][1..] == [OsdStep] && [OsdStep][1..] == [];
    assert RunEvents([OsdStep], s2) == s3 && RunOwners([OsdStep], s2, o2) == o3;
    assert RunEvents([OsdStep, OsdStep], s1) == s3 && RunOwners([OsdStep, OsdStep], s1, o1) == o3;
    assert IsServed([OsdStep], s2, k) <==> Serves(OsdStep, s2, k);
    assert IsServed([OsdStep, OsdStep], s1, k) <==> Serves(OsdStep, s1, k) || Serves(OsdStep, s2, k);
    assert SetsAreLeftAlone([OsdStep], s2, o2) && SetsAreLeftAlone([OsdStep, OsdStep], s1, o1);
    assert EventsFollow([OsdStep], s2, plan) && EventsFollow([OsdStep, OsdStep], s1, plan);
  }

  lemma {:induction false} ServeAll(s: System, o: Owners, plan: Plan, names: set<string>) returns (es: seq<Event>)
    requires IsIdle(s, o, plan) && names <= s.w.osds.Keys
    ensures EventsFollow(es, s, plan) && SetsAreLeftAlone(es, s, o)
    ensures forall k :: k in names ==> IsServed(es, s, k)
    ensures IsIdle(RunEvents(es, s), RunOwners(es, s, o), plan) && RunEvents(es, s).w.osds == s.w.osds
    decreases |names|
  {
    if names == {} {
      es := [];
    } else {
      var a :| a in names;
      ServeOne(s, o, plan, a);
      var s', o' := RunEvents(OsdPass(a), s), RunOwners(OsdPass(a), s, o);
      var rest := ServeAll(s', o', plan, names - {a});
      es := OsdPass(a) + rest;
      SegmentsJoin(OsdPass(a), rest, s, plan, "");
      StretchesJoin(OsdPass(a), rest, s, o);
      forall k | k in names ensures IsServed(es, s, k) {
        ServedInEither(OsdPass(a), rest, s, k);
      }
    }
  }

  // ------------------------------------------------------------------- all of it

  lemma {:induction false} NoEdits(es: seq<Event>, s: System, o: Owners)
    requires HasNoEdits(es)
    ensures SetsAreLeftAlone(es, s, o)
    decreases |es|
  {
    if es != [] {
      NoEdits(es[1..], Next(es[0], s), NextOwners(es[0], s, o));
    }
  }

  lemma ThoroughStretchExists(s: System, o: Owners, plan: Plan) returns (es: seq<Event>)
    requires IsIdle(s, o, plan)
    ensures IsThorough(es, s, o, plan)
  {
    var as_ := CollectAll(s, o, plan, o.lost);
    var s1, o1 := RunEvents(as_, s), RunOwners(as_, s, o);
    var bs := ServeAll(s1, o1, plan, s1.w.osds.Keys);
    var s2, o2 := RunEvents(bs, s1), RunOwners(bs, s1, o1);
    var cs := FairSegmentExists(s2, plan);
    NoEdits(cs, s2, o2);
    StretchesJoin(bs, cs, s1, o1);
    StretchesJoin(as_, bs + cs, s, o);
    es := as_ + (bs + cs);
    SegmentsJoin(bs, cs, s1, plan, "");
    SegmentsJoin(as_, bs + cs, s, plan, "");
    forall b | b in plan ensures Completions(es, s, b) > 0 {
      SegmentsJoin(bs, cs, s1, plan, b);
      SegmentsJoin(as_, bs + cs, s, plan, b);
    }
    forall k | k in s.w.osds ensures IsServed(es, s, k) {
      ServedInEither(bs, cs, s1, k);
      ServedInEither(as_, bs + cs, s, k);
    }
    forall k | k in o.lost ensures IsCollected(es, s, k) {
      CollectedInEither(as_, bs + cs, s, k);
    }
  }
}
