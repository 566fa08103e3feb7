/** The OSD controller: one StatefulSet for each VitastorOSD, whose image follows it. */
module OsdController {
  import opened Api

  datatype Outcome = Gone | Failed | Created | Patched | UpToDate

  datatype Pass =
    | Start(req: string)
    | GetSet(osd: VitastorOSD)
    | CreateSet(osd: VitastorOSD)
    | PatchSet(osd: VitastorOSD, found: StatefulSet)
    | Done(outcome: Outcome)

  /** The name, node, path and image parts of the StatefulSet built for an OSD. */
  function SetFor(osd: VitastorOSD): StatefulSet {
    StatefulSet(osd.name, osd.nodeName, osd.path, osd.image)
  }

  function Step(p: Pass, w: World): (Pass, World)
    requires !p.Done?
  {
    match p
    case Start(req) =>
      if req in w.osds then (GetSet(w.osds[req]), w) else (Done(Gone), w)
    case GetSet(osd) =>
      if osd.name !in w.sets then (CreateSet(osd), w)
      else if w.sets[osd.name].image != osd.image then (PatchSet(osd, w.sets[osd.name]), w)
      else (Done(UpToDate), w)
    case CreateSet(osd) =>
      if osd.name in w.sets then (Done(Failed), w)
      else (Done(Created), w.(sets := w.sets[osd.name := SetFor(osd)]))
    case PatchSet(osd, found) =>
      if osd.name in w.sets && w.sets[osd.name] == found then
        (Done(Patched), w.(sets := w.sets[osd.name := found.(image := osd.image)]))
      else (Done(Failed), w)
  }

  function Run(n: nat, p: Pass, w: World): (Pass, World) {
    if n == 0 || p.Done? then (p, w)
    else
      var (p', w') := Step(p, w);
      Run(n - 1, p', w')
  }

  lemma RunStep(n: nat, p: Pass, w: World)
    requires n > 0 && !p.Done?
    ensures Run(n, p, w) == Run(n - 1, Step(p, w).0, Step(p, w).1)
  {
  }

  class VitastorOSDReconciler {
    const client: Store

    constructor (client: Store)
      ensures this.client == client
    {
      this.client := client;
    }

    method Reconcile(req: string, calls: nat) returns (end: Pass)
      modifies client
      ensures (end, client.Snapshot()) == Run(calls, Start(req), old(client.Snapshot()))
    {
      if calls == 0 { return Start(req); }
      if req !in client.osds { return Done(Gone); }
      var osd := client.osds[req];
      if calls == 1 { return GetSet(osd); }
      RunStep(calls, Start(req), client.Snapshot());
      RunStep(calls - 1, GetSet(osd), client.Snapshot());
      if osd.name !in client.sets {
        if calls == 2 { return CreateSet(osd); }
        RunStep(calls - 2, CreateSet(osd), client.Snapshot());
        client.sets := client.sets[osd.name := SetFor(osd)];
        return Done(Created);
      }
      var found := client.sets[osd.name];
      if found.image != osd.image {
        if calls == 2 { return PatchSet(osd, found); }
        RunStep(calls - 2, PatchSet(osd, found), client.Snapshot());
        client.sets := client.sets[osd.name := found.(image := osd.image)];
        return Done(Patched);
      }
      end := Done(UpToDate);
    }
  }

  /** An uncut pass: what it does to the StatefulSet of the request, and how it ends. */
  lemma WholePass(n: nat, req: string, w: World)
    requires n >= 3 && KeyedOsds(w.osds)
    ensures var (p, w') := Run(n, Start(req), w);
      && w' == w.(sets := w'.sets)
      && (req !in w.osds ==> p == Done(Gone) && w'.sets == w.sets)
      && (req in w.osds && req !in w.sets ==>
            var osd := w.osds[req];
            p == Done(Created) && w'.sets == w.sets[req := StatefulSet(req, osd.nodeName, osd.path, osd.image)])
      && (req in w.osds && req in w.sets && w.sets[req].image == w.osds[req].image ==>
            p == Done(UpToDate) && w'.sets == w.sets)
      && (req in w.osds && req in w.sets && w.sets[req].image != w.osds[req].image ==>
            p == Done(Patched) && w'.sets == w.sets[req := w.sets[req].(image := w.osds[req].image)])
  {
    RunStep(n, Start(req), w);
    if req in w.osds {
      var osd := w.osds[req];
      RunStep(n - 1, GetSet(osd), w);
      var p := Step(GetSet(osd), w).0;
      if !p.Done? {
        RunStep(n - 2, p, w);
      }
    }
  }
}
