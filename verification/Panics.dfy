/** When a pass of the node controller panics: at a label that contains the prefix and no
    slash, and nowhere else. The other index into an answer, the placement map read back in
    the create loop, always finds something. */
module Panics {
  import opened Placement
  import opened Api
  import opened NodePass
  import Forest
  import LabelKeys
  import Operator
  import SerialRuns

  /** A label key for the pass to trip over. */
  ghost predicate HasNoSlash(l: Label) {
    LabelKeys.Contains(l.key, "fd.vitastor.io") && '/' !in l.key
  }

  lemma MalformedIffNoSlash(l: Label)
    ensures Malformed(l) <==> HasNoSlash(l)
  {
    LabelKeys.KindIs(l);
  }

  /** The bare prefix is such a key. */
  lemma BarePrefixIsMalformed(v: string)
    ensures Malformed(Label("fd.vitastor.io", v))
  {
    Forest.PrefixHasNoSlash();
    assert FD_PREFIX == "" + FD_PREFIX + "";
    MalformedIffNoSlash(Label(FD_PREFIX, v));
  }

  ghost predicate HasBadLabel(answers: Answers) {
    answers.labels.Some? && exists l :: l in answers.labels.value && HasNoSlash(l)
  }

  lemma NoTreeIffBadLabel(t: Tree, host: string, answers: Answers)
    requires answers.labels.Some?
    ensures HostTree(t, host, answers.labels.value).None? <==> HasBadLabel(answers)
  {
    var labels := answers.labels.value;
    if HostTree(t, host, labels).None? {
      var i :| 0 <= i < |labels| && Malformed(labels[i]);
      MalformedIffNoSlash(labels[i]);
    }
    if HasBadLabel(answers) {
      var l :| l in labels && HasNoSlash(l);
      MalformedIffNoSlash(l);
    }
  }

  /** From the first write on the map is stored, and entries are read for reported OSDs. */
  predicate IsSteady(p: Pass, w: World) {
    match p
    case Start(_, _) => true
    case ReadTree(_) => true
    case WriteTree(_, _) => true
    case ReadEntry(c, i) => w.tree.Some? && i < |c.Report()|
    case WriteEntry(c, i, _) => w.tree.Some? && i < |c.Report()|
    case Done(_) => true
    case _ => w.tree.Some?
  }

  lemma StepIsSteady(p: Pass, w: World)
    requires !p.Done? && IsSteady(p, w)
    ensures IsSteady(Step(p, w).0, Step(p, w).1)
    ensures Step(p, w).0 == Done(Panicked) ==> p.ReadTree?
  {
  }

  lemma StepPanics(p: Pass, w: World)
    requires !p.Done? && IsSteady(p, w)
    ensures Step(p, w).0 == Done(Panicked) <==> p.ReadTree? && HasBadLabel(p.c.answers)
  {
    StepIsSteady(p, w);
    if p.ReadTree? && p.c.answers.labels.Some? {
      NoTreeIffBadLabel(TreeOf(w), p.c.node.name, p.c.answers);
    }
  }

  predicate IsPastLabels(p: Pass) {
    !p.Start? && !p.ReadTree? && p != Done(Panicked)
  }

  lemma StepStaysPastLabels(p: Pass, w: World)
    requires !p.Done? && IsPastLabels(p) && IsSteady(p, w)
    ensures IsPastLabels(Step(p, w).0)
  {
  }

  lemma {:induction false} RunStaysPastLabels(n: nat, p: Pass, w: World)
    requires IsPastLabels(p) && IsSteady(p, w)
    ensures IsPastLabels(Run(n, p, w).0)
    decreases n
  {
    if n > 0 && !p.Done? {
      StepIsSteady(p, w);
      StepStaysPastLabels(p, w);
      RunStaysPastLabels(n - 1, Step(p, w).0, Step(p, w).1);
    }
  }

  /** A pass that gets to the labels of its node panics if and only if one of their keys
      contains the prefix and no slash, however far it gets otherwise. */
  lemma PassPanicsIffNoSlash(n: nat, req: string, answers: Answers, w: World)
    requires n >= 2 && req in w.nodes && answers.labels.Some?
    ensures Run(n, Start(req, answers), w).0 == Done(Panicked)
      <==> exists l :: l in answers.labels.value && LabelKeys.Contains(l.key, "fd.vitastor.io") && '/' !in l.key
  {
    var c := Context(w.nodes[req], answers);
    RunStep(n, Start(req, answers), w);
    RunStep(n - 1, ReadTree(c), w);
    NoTreeIffBadLabel(TreeOf(w), c.node.name, answers);
    var (p, w') := Step(ReadTree(c), w);
    if p != Done(Panicked) {
      RunStaysPastLabels(n - 2, p, w');
    }
    assert HasBadLabel(answers) <==> exists l :: l in answers.labels.value && HasNoSlash(l);
  }

  lemma EventIsSteady(e: Operator.Event, s: Operator.System)
    requires IsSteady(s.node, s.w)
    ensures var s' := Operator.Next(e, s); IsSteady(s'.node, s'.w)
  {
    if e.NodeStep? && !s.node.Done? {
      StepIsSteady(s.node, s.w);
    } else if !SerialRuns.IsOwn(e, SerialRuns.NodeWriter) && !e.Restart? {
      SerialRuns.OthersKeepOut(e, s, SerialRuns.NodeWriter);
      assert Operator.Next(e, s).w.tree == s.w.tree;
    }
  }

  /** The same in any interleaving: whatever happened before, the node worker's next step
      panics if and only if it is about to go through labels with such a key. */
  lemma {:induction false} InterleavedPanic(es: seq<Operator.Event>, s: Operator.System)
    requires IsSteady(s.node, s.w)
    ensures var end := Operator.RunEvents(es, s);
      !end.node.Done? ==>
        (Step(end.node, end.w).0 == Done(Panicked) <==> end.node.ReadTree? && HasBadLabel(end.node.c.answers))
    decreases |es|
  {
    if es == [] {
      if !s.node.Done? { StepPanics(s.node, s.w); }
    } else {
      EventIsSteady(es[0], s);
      InterleavedPanic(es[1..], Operator.Next(es[0], s));
    }
  }
}
