/** Freds on workers: suspend and resume with runState, yields, direct switches and
    termination.  A switch leaves the old stack first and runs its post function on the
    new one.  Any agent may resume a fred, at most once for each suspension. */
module FredSwitch {
  import opened Memory

  type Fred = nat

  const PARKED := 0
  const RUNNING := 1
  const RESUMED_EARLY := 2

  /** Where a fred's own code stands. */
  datatype Stage =
    | Code                 // not in suspend
    | Spin                 // in suspend, before a compare-and-swap of runState
    | Leaving              // in suspendInternal, postSuspend not done
    | Out                  // suspended: postSuspend done, suspend not returned

  /** The suspension a fred has announced: not resumed yet, or resumed. */
  datatype Token = Unset | Pending | Given

  /** History: where the fred is.  Its stack is in use while it is On a worker. */
  datatype Loc = New | On(w: Tid) | Picked(w: Tid) | Switched(w: Tid) | Away | Carried(a: Tid) | Queued(p: Tid) | Dead

  datatype Code = FromIdle | Yield | Suspend | Direct | Terminate

  datatype Target = Nobody | The(f: Fred)

  /** What a worker does besides running the code of its current fred. */
  datatype Pc =
    | Free
    | Chosen(next: Target, code: Code)     // about to switch stacks
    | Post(prev: Fred, code: Code)         // on the new stack: the post function
    | PostEnqueue(prev: Fred)              // resumeInternal in the post function

  datatype Act = Take(q: Tid) | Dest(p: Tid) | Resume(f: Fred) | Start(f: Fred) | Announce | Enter | Finish(q: Tid) | Go

  datatype Actor = Worker(w: Tid) | Agent(a: Tid)

  datatype Life = Life(
    runState: int,
    stage: Stage,
    token: Token,
    loc: Loc,
    resumes: nat,          // history: calls of resume
    finished: nat)         // history: suspensions that have returned

  datatype State = State(
    freds: map<Fred, Life>,
    cur: map<Tid, Target>,        // the current fred of a worker, Nobody for its idle fred
    pc: map<Tid, Pc>,
    ready: map<Tid, seq<Fred>>,   // the ready queue of a worker
    hand: map<Tid, Target>)       // the fred an agent is about to enqueue
  {
    function Of(f: Fred): Life { if f in freds then freds[f] else Life(RUNNING, Code, Unset, New, 0, 0) }
    function Cur(w: Tid): Target { if w in cur then cur[w] else Nobody }
    function Pc(w: Tid): Pc { if w in pc then pc[w] else Free }
    function Ready(p: Tid): seq<Fred> { if p in ready then ready[p] else [] }
    function Hand(a: Tid): Target { if a in hand then hand[a] else Nobody }
    function Put(f: Fred, x: Life): State { this.(freds := freds[f := x]) }
    function Doing(w: Tid, p: Pc): State { this.(pc := pc[w := p]) }
  }

  function Init(): State { State(map[], map[], map[], map[], map[]) }

  // ---------------------------------------------------------------- the steps

  /** enqueueFred on the ready queue of worker p. */
  function Enqueue(s: State, f: Fred, p: Tid): State {
    s.(freds := s.freds[f := s.Of(f).(loc := Queued(p))], ready := s.ready[p := s.Ready(p) + [f]])
  }

  /** Take the first fred of queue q and be about to switch to it. */
  function Pick(s: State, w: Tid, q: Tid, code: Code): State {
    if s.Ready(q) == [] then s else
    var g := s.Ready(q)[0];
    s.(freds := s.freds[g := s.Of(g).(loc := Picked(w))], ready := s.ready[q := s.Ready(q)[1..]],
       pc := s.pc[w := Chosen(The(g), code)])
  }

  /** scheduleFull: a fred from a ready queue, or the idle fred. */
  function Schedule(s: State, w: Tid, a: Act, code: Code): State {
    if a.Take? && s.Ready(a.q) != [] then Pick(s, w, a.q, code) else s.Doing(w, Chosen(Nobody, code))
  }

  /** resume: fetch_add on runState; a parked fred is in the caller's hands then. */
  function Added(x: Life, loc: Loc): Life {
    x.(runState := x.runState + 1, token := Given, resumes := x.resumes + 1,
       loc := if x.runState == PARKED then loc else x.loc)
  }

  /** suspend returns. */
  function Returned(x: Life): Life {
    x.(runState := RUNNING, stage := Code, token := Unset, finished := x.finished + 1)
  }

  /** The current fred's own code. */
  function FredStep(s: State, w: Tid, f: Fred, a: Act): State {
    var x := s.Of(f);
    match x.stage
    case Code =>
      if a.Announce? && x.token.Unset? then s.Put(f, x.(token := Pending))
      else if a.Enter? && !x.token.Unset? then s.Put(f, x.(stage := Spin))
      else if a.Take? then Pick(s, w, a.q, Yield)
      else if a.Resume? && s.Of(a.f).token.Pending? then
        var s' := s.Put(a.f, Added(s.Of(a.f), Picked(w)));
        if s.Of(a.f).runState == PARKED then s'.Doing(w, Chosen(The(a.f), Direct)) else s'
      else if a.Finish? && x.token.Unset? then Schedule(s, w, Take(a.q), Terminate)
      else s
    case Spin =>
      if x.runState == RESUMED_EARLY then s.Put(f, Returned(x))
      else if a.Enter? then s
      else Schedule(s.Put(f, x.(stage := Leaving)), w, a, Suspend)
    case Leaving => s
    case Out => s.Put(f, Returned(x))
  }

  /** stackSwitch: from here on the worker runs on the stack of the next fred. */
  function Switch(s: State, w: Tid, next: Target, code: Code): State {
    var from := s.Cur(w);
    var s1 := if next.The? then s.Put(next.f, s.Of(next.f).(loc := On(w))) else s;
    var s2 := s1.(cur := s.cur[w := next]);
    if from.Nobody? then s2.Doing(w, Free)
    else s2.(freds := s2.freds[from.f := s2.Of(from.f).(loc := Switched(w))], pc := s.pc[w := Post(from.f, code)])
  }

  /** postYield, postResume, postSuspend, postTerminate. */
  function PostStep(s: State, w: Tid, f: Fred, code: Code, p: Tid): State {
    var x := s.Of(f);
    match code
    case FromIdle => s.Doing(w, Free)
    case Yield => Enqueue(s, f, p).Doing(w, Free)
    case Direct => Enqueue(s, f, p).Doing(w, Free)
    case Terminate => s.Put(f, x.(loc := Dead)).Doing(w, Free)
    case Suspend =>
      if x.runState == RESUMED_EARLY then
        s.Put(f, x.(runState := x.runState - 1, stage := Out)).Doing(w, PostEnqueue(f))
      else
        s.Put(f, x.(runState := x.runState - 1, stage := Out, loc := Away)).Doing(w, Free)
  }

  /** A fred is enqueued on the worker it belongs to, which affinity may have changed. */
  function Home(a: Act, w: Tid): Tid { if a.Dest? then a.p else w }

  function WorkerStep(s: State, w: Tid, a: Act): State {
    match s.Pc(w)
    case Free =>
      if s.Cur(w).The? then FredStep(s, w, s.Cur(w).f, a)
      else if a.Take? then Pick(s, w, a.q, FromIdle)
      else s
    case Chosen(next, code) => Switch(s, w, next, code)
    case Post(f, code) => PostStep(s, w, f, code, Home(a, w))
    case PostEnqueue(f) => Enqueue(s, f, Home(a, w)).Doing(w, Free)
  }

  function AgentStep(s: State, t: Tid, a: Act): State {
    if s.Hand(t).The? then Enqueue(s, s.Hand(t).f, Home(a, t)).(hand := s.hand[t := Nobody])
    else if a.Resume? && s.Of(a.f).token.Pending? then
      var s' := s.Put(a.f, Added(s.Of(a.f), Carried(t)));
      if s.Of(a.f).runState == PARKED then s'.(hand := s.hand[t := The(a.f)]) else s'
    else if a.Start? && s.Of(a.f).loc.New? then
      s.Put(a.f, s.Of(a.f).(loc := Carried(t))).(hand := s.hand[t := The(a.f)])
    else s
  }

  function Step(s: State, who: Actor, a: Act): State {
    if who.Worker? then WorkerStep(s, who.w, a) else AgentStep(s, who.a, a)
  }

  // ------------------------------------------------------------ the invariant

  /** runState says how often the fred was resumed, less how often it was suspended. */
  predicate Lawful(x: Life) {
    && (x.stage.Out? ==>
          || (x.token.Pending? && x.runState == PARKED && x.loc.Away?)
          || (x.token.Given? && x.runState == RUNNING && !x.loc.Away? && !x.loc.New? && !x.loc.Dead?))
    && (!x.stage.Out? ==> x.runState == (if x.token.Given? then RESUMED_EARLY else RUNNING) && !x.loc.Away?)
    && (x.stage.Spin? ==> !x.token.Unset? && x.loc.On?)
    && (x.stage.Leaving? ==> !x.token.Unset? && (x.loc.On? || x.loc.Switched?))
    && x.resumes == x.finished + (if x.token.Given? then 1 else 0)
    && (x.loc.Dead? || x.loc.New? ==> x.token.Unset?)
  }

  /** A fred is on the stack, in the hands or in the queue that loc says, and no other. */
  predicate Located(s: State, f: Fred, w: Tid) {
    && (s.Of(f).loc == On(w) <==> s.Cur(w) == The(f))
    && (s.Of(f).loc == Picked(w) <==> s.Pc(w).Chosen? && s.Pc(w).next == The(f))
    && (s.Of(f).loc == Switched(w) <==> (s.Pc(w).Post? || s.Pc(w).PostEnqueue?) && s.Pc(w).prev == f)
    && (s.Of(f).loc == Carried(w) <==> s.Hand(w) == The(f))
    && (s.Of(f).loc == Queued(w) <==> f in s.Ready(w))
  }

  /** The stage of the fred that a worker is leaving. */
  predicate Fits(x: Life, code: Code) {
    match code
    case FromIdle => false
    case Suspend => x.stage.Leaving?
    case Terminate => x.stage.Code? && x.token.Unset?
    case _ => x.stage.Code?
  }

  predicate Busy(s: State, w: Tid) {
    match s.Pc(w)
    case Free => s.Cur(w).The? ==> !s.Of(s.Cur(w).f).stage.Leaving?
    case Chosen(next, code) =>
      if s.Cur(w).The? then Fits(s.Of(s.Cur(w).f), code) else code.FromIdle?
    case Post(f, code) => Fits(s.Of(f), code) && (s.Cur(w).The? ==> !s.Of(s.Cur(w).f).stage.Leaving?)
    case PostEnqueue(f) => s.Of(f).stage.Out? && (s.Cur(w).The? ==> !s.Of(s.Cur(w).f).stage.Leaving?)
  }

  ghost predicate Inv(s: State) {
    && (forall f: Fred :: Lawful(s.Of(f)))
    && (forall f: Fred, w: Tid :: Located(s, f, w))
    && (forall w: Tid :: Busy(s, w))
    && (forall w: Tid :: Distinct(s.Ready(w)))
  }

  // ------------------------------------------------------ every step keeps it

  lemma InitInv()
    ensures Inv(Init())
  {}

  /** The fred that a pick from queue q would take. */
  function Head(s: State, q: Tid): Fred { if s.Ready(q) != [] then s.Ready(q)[0] else 0 }

  lemma FredOwnLawful(s: State, w: Tid, f: Fred, a: Act)
    requires Lawful(s.Of(f)) && s.Pc(w).Free? && s.Cur(w) == The(f) && Located(s, f, w)
    requires a.Take? || a.Finish? ==> Located(s, Head(s, a.q), a.q)
    ensures Lawful(FredStep(s, w, f, a).Of(f))
  {}

  lemma FredLawful(s: State, w: Tid, f: Fred, a: Act, g: Fred)
    requires Lawful(s.Of(f)) && Lawful(s.Of(g)) && s.Pc(w).Free? && s.Cur(w) == The(f)
    requires Located(s, f, w) && (a.Take? || a.Finish? ==> Located(s, Head(s, a.q), a.q) && Lawful(s.Of(Head(s, a.q))))
    ensures Lawful(FredStep(s, w, f, a).Of(g))
  {
    if g == f { FredOwnLawful(s, w, f, a); }
  }

  /** Picking a fred, while the current one changes at most its stage. */
  lemma PickLocated(s: State, s1: State, w: Tid, q: Tid, code: Code, g: Fred, u: Tid)
    requires s1.cur == s.cur && s1.pc == s.pc && s1.ready == s.ready && s1.hand == s.hand
    requires s1.Of(g).loc == s.Of(g).loc && s.Pc(w).Free? && s.Ready(q) != [] && Distinct(s.Ready(q))
    requires Located(s, g, u) && Located(s, g, w) && Located(s, g, q) && Located(s, Head(s, q), q) && Located(s, Head(s, q), u)
    requires s1.Of(Head(s, q)).loc == s.Of(Head(s, q)).loc
    ensures Located(Pick(s1, w, q, code), g, u)
  {
    TailKeeps(s.Ready(q), g);
  }

  lemma IdleLocated(s: State, s1: State, w: Tid, code: Code, g: Fred, u: Tid)
    requires s1.cur == s.cur && s1.pc == s.pc && s1.ready == s.ready && s1.hand == s.hand
    requires s1.Of(g).loc == s.Of(g).loc && s.Pc(w).Free? && Located(s, g, u)
    ensures Located(s1.Doing(w, Chosen(Nobody, code)), g, u)
  {}

  lemma ResumeLocated(s: State, w: Tid, f: Fred, a: Act, g: Fred, u: Tid)
    requires s.Pc(w).Free? && a.Resume? && s.Of(f).stage.Code? && Located(s, g, u) && Located(s, g, w)
    requires Lawful(s.Of(a.f)) && Located(s, a.f, u)
    ensures Located(FredStep(s, w, f, a), g, u)
  {}

  lemma FredLocated(s: State, w: Tid, f: Fred, a: Act, g: Fred, u: Tid)
    requires s.Pc(w).Free? && Located(s, g, u) && Located(s, g, w)
    requires a.Take? || a.Finish? ==> Distinct(s.Ready(a.q)) && Located(s, g, a.q)
    requires a.Take? || a.Finish? ==> Located(s, Head(s, a.q), a.q) && Located(s, Head(s, a.q), u)
    requires a.Resume? ==> Lawful(s.Of(a.f)) && Located(s, a.f, u)
    ensures Located(FredStep(s, w, f, a), g, u)
  {
    var x := s.Of(f);
    var s1 := if x.stage.Spin? then s.Put(f, x.(stage := Leaving)) else s;
    if x.stage.Code? && a.Resume? {
      ResumeLocated(s, w, f, a, g, u);
    } else if (x.stage.Code? && (a.Take? || a.Finish?)) || (x.stage.Spin? && x.runState != RESUMED_EARLY && !a.Enter?) {
      var code := if x.stage.Spin? then Suspend else if a.Take? then Yield else Terminate;
      if (a.Take? || a.Finish?) && s.Ready(a.q) != [] { PickLocated(s, s1, w, a.q, code, g, u); }
      IdleLocated(s, s1, w, code, g, u);
    }
  }

  lemma FredOwnBusy(s: State, w: Tid, f: Fred, a: Act)
    requires s.Pc(w).Free? && s.Cur(w) == The(f) && Located(s, f, w) && Busy(s, w) && Lawful(s.Of(f))
    requires a.Take? || a.Finish? ==> Located(s, Head(s, a.q), a.q)
    requires a.Resume? ==> Lawful(s.Of(a.f))
    ensures Busy(FredStep(s, w, f, a), w)
  {}

  lemma FredBusy(s: State, w: Tid, f: Fred, a: Act, u: Tid)
    requires s.Pc(w).Free? && s.Cur(w) == The(f) && Busy(s, u) && u != w
    requires Located(s, f, w) && Located(s, f, u)
    requires a.Take? || a.Finish? ==> Located(s, Head(s, a.q), a.q)
    ensures Busy(FredStep(s, w, f, a), u)
  {
    OtherWorker(s, w, f, a, u);
    if s.Cur(u).The? { OnlyRuns(s, w, f, a, s.Cur(u).f); }
    if s.Pc(u).Post? || s.Pc(u).PostEnqueue? { OnlyRuns(s, w, f, a, s.Pc(u).prev); }
  }

  /** A step of fred f's code changes no other worker and the stage of no other fred. */
  lemma OtherWorker(s: State, w: Tid, f: Fred, a: Act, u: Tid)
    requires u != w
    ensures FredStep(s, w, f, a).Pc(u) == s.Pc(u) && FredStep(s, w, f, a).Cur(u) == s.Cur(u)
  {}

  lemma OnlyRuns(s: State, w: Tid, f: Fred, a: Act, g: Fred)
    requires g != f
    ensures var x := FredStep(s, w, f, a).Of(g);
      x.stage == s.Of(g).stage && (s.Of(g).token.Unset? ==> x.token.Unset?)
  {}

  lemma SwitchLawful(s: State, w: Tid, g: Fred)
    requires s.Pc(w).Chosen? && Busy(s, w) && Lawful(s.Of(g)) && Located(s, g, w)
    ensures Lawful(Switch(s, w, s.Pc(w).next, s.Pc(w).code).Of(g))
  {}

  lemma SwitchLocated(s: State, w: Tid, g: Fred, u: Tid)
    requires s.Pc(w).Chosen? && Busy(s, w) && Located(s, g, u) && Located(s, g, w)
    ensures Located(Switch(s, w, s.Pc(w).next, s.Pc(w).code), g, u)
  {
    if u == w { SwitchOwnLocated(s, w, g); }
  }

  lemma SwitchOwnLocated(s: State, w: Tid, g: Fred)
    requires s.Pc(w).Chosen? && Busy(s, w) && Located(s, g, w)
    ensures Located(Switch(s, w, s.Pc(w).next, s.Pc(w).code), g, w)
  {}

  lemma SwitchBusy(s: State, w: Tid, u: Tid)
    requires s.Pc(w).Chosen? && Busy(s, w) && Busy(s, u)
    requires s.Pc(w).next.The? ==> Located(s, s.Pc(w).next.f, w) && Lawful(s.Of(s.Pc(w).next.f))
    ensures Busy(Switch(s, w, s.Pc(w).next, s.Pc(w).code), u)
  {
    if u == w { SwitchOwnBusy(s, w); }
  }

  lemma SwitchOwnBusy(s: State, w: Tid)
    requires s.Pc(w).Chosen? && Busy(s, w)
    requires s.Pc(w).next.The? ==> Located(s, s.Pc(w).next.f, w) && Lawful(s.Of(s.Pc(w).next.f))
    ensures Busy(Switch(s, w, s.Pc(w).next, s.Pc(w).code), w)
  {}

  lemma PostLawful(s: State, w: Tid, p: Tid, g: Fred)
    requires s.Pc(w).Post? && Busy(s, w) && Lawful(s.Of(g)) && Located(s, g, w)
    ensures Lawful(PostStep(s, w, s.Pc(w).prev, s.Pc(w).code, p).Of(g))
  {}

  /** The post function, or resumeInternal in it, enqueues the fred. */
  lemma EnqueueLocated(s: State, w: Tid, f: Fred, p: Tid, g: Fred, u: Tid)
    requires (s.Pc(w).Post? || s.Pc(w).PostEnqueue?) && s.Pc(w).prev == f
    requires Located(s, g, u) && Located(s, g, w) && Located(s, g, p)
    ensures Located(Enqueue(s, f, p).Doing(w, Free), g, u)
  {
    assert g in s.Ready(p) + [f] <==> g in s.Ready(p) || g == f;
  }

  lemma LeaveLocated(s: State, w: Tid, p: Tid, g: Fred, u: Tid)
    requires s.Pc(w).Post? && Busy(s, w) && !s.Pc(w).code.Yield? && !s.Pc(w).code.Direct?
    requires Located(s, g, u) && Located(s, g, w)
    ensures Located(PostStep(s, w, s.Pc(w).prev, s.Pc(w).code, p), g, u)
  {
    LeaveFrame(s, w, p, u);
    LeaveLoc(s, w, p, g);
  }

  /** Where the post function leaves the freds. */
  lemma LeaveLoc(s: State, w: Tid, p: Tid, g: Fred)
    requires s.Pc(w).Post? && !s.Pc(w).code.Yield? && !s.Pc(w).code.Direct?
    ensures var was, now := s.Of(g).loc, PostStep(s, w, s.Pc(w).prev, s.Pc(w).code, p).Of(g).loc;
      if g != s.Pc(w).prev || s.Pc(w).code.FromIdle? then now == was
      else if s.Pc(w).code.Terminate? then now.Dead?
      else if s.Of(g).runState == RESUMED_EARLY then now == was
      else now.Away?
  {}

  lemma LeaveFrame(s: State, w: Tid, p: Tid, u: Tid)
    requires s.Pc(w).Post? && !s.Pc(w).code.Yield? && !s.Pc(w).code.Direct?
    ensures var s' := PostStep(s, w, s.Pc(w).prev, s.Pc(w).code, p);
      && s'.Cur(u) == s.Cur(u) && s'.Hand(u) == s.Hand(u) && s'.Ready(u) == s.Ready(u)
      && s'.Pc(u) == if u != w then s.Pc(u)
                     else if s.Pc(w).code.Suspend? && s.Of(s.Pc(w).prev).runState == RESUMED_EARLY
                     then PostEnqueue(s.Pc(w).prev) else Free
  {}

  lemma PostLocated(s: State, w: Tid, p: Tid, g: Fred, u: Tid)
    requires s.Pc(w).Post? && Busy(s, w) && Located(s, g, u) && Located(s, g, w) && Located(s, g, p)
    ensures Located(PostStep(s, w, s.Pc(w).prev, s.Pc(w).code, p), g, u)
  {
    if s.Pc(w).code.Yield? || s.Pc(w).code.Direct? {
      EnqueueLocated(s, w, s.Pc(w).prev, p, g, u);
    } else {
      LeaveLocated(s, w, p, g, u);
    }
  }

  lemma PostOwnBusy(s: State, w: Tid, p: Tid)
    requires s.Pc(w).Post? && Busy(s, w) && Located(s, s.Pc(w).prev, w)
    ensures Busy(PostStep(s, w, s.Pc(w).prev, s.Pc(w).code, p), w)
  {}

  lemma PostBusy(s: State, w: Tid, p: Tid, u: Tid)
    requires s.Pc(w).Post? && Busy(s, w) && Busy(s, u) && Located(s, s.Pc(w).prev, w) && Located(s, s.Pc(w).prev, u)
    requires s.Cur(u).The? ==> Located(s, s.Cur(u).f, u) && Located(s, s.Cur(u).f, w)
    ensures Busy(PostStep(s, w, s.Pc(w).prev, s.Pc(w).code, p), u)
  {
    if u == w { PostOwnBusy(s, w, p); }
  }

  lemma EnqueueLawful(s: State, w: Tid, p: Tid, g: Fred)
    requires s.Pc(w).PostEnqueue? && Busy(s, w) && Lawful(s.Of(g)) && Located(s, g, w)
    ensures Lawful(Enqueue(s, s.Pc(w).prev, p).Of(g))
  {}

  lemma EnqueueBusy(s: State, w: Tid, p: Tid, u: Tid)
    requires s.Pc(w).PostEnqueue? && Busy(s, w) && Busy(s, u)
    ensures Busy(Enqueue(s, s.Pc(w).prev, p).Doing(w, Free), u)
  {}

  lemma AgentLawful(s: State, t: Tid, a: Act, g: Fred)
    requires Lawful(s.Of(g)) && (s.Hand(t).The? ==> Located(s, s.Hand(t).f, t))
    ensures Lawful(AgentStep(s, t, a).Of(g))
  {}

  lemma HandLocated(s: State, t: Tid, a: Act, g: Fred, u: Tid)
    requires Located(s, g, u) && Located(s, g, t) && Located(s, g, Home(a, t)) && s.Hand(t).The?
    ensures Located(AgentStep(s, t, a), g, u)
  {
    assert g in s.Ready(Home(a, t)) + [s.Hand(t).f] <==> g in s.Ready(Home(a, t)) || g == s.Hand(t).f;
  }

  lemma StartLocated(s: State, t: Tid, a: Act, g: Fred, u: Tid)
    requires Located(s, g, u) && Located(s, g, t) && s.Hand(t).Nobody? && !a.Resume?
    ensures Located(AgentStep(s, t, a), g, u)
  {}

  lemma TakeLocated(s: State, t: Tid, a: Act, g: Fred, u: Tid)
    requires Located(s, g, u) && Located(s, g, t) && s.Hand(t).Nobody?
    requires a.Resume? ==> Lawful(s.Of(a.f)) && Located(s, a.f, u)
    ensures Located(AgentStep(s, t, a), g, u)
  {
    if !a.Resume? { StartLocated(s, t, a, g, u); }
  }

  lemma AgentLocated(s: State, t: Tid, a: Act, g: Fred, u: Tid)
    requires Located(s, g, u) && Located(s, g, t) && Located(s, g, Home(a, t))
    requires a.Resume? ==> Lawful(s.Of(a.f)) && Located(s, a.f, u)
    ensures Located(AgentStep(s, t, a), g, u)
  {
    if s.Hand(t).The? { HandLocated(s, t, a, g, u); } else { TakeLocated(s, t, a, g, u); }
  }

  lemma AgentBusy(s: State, t: Tid, a: Act, u: Tid)
    requires Busy(s, u) && (s.Hand(t).The? ==> Located(s, s.Hand(t).f, t))
    ensures Busy(AgentStep(s, t, a), u)
  {}

  lemma EnqueueDistinct(s: State, f: Fred, p: Tid, r: Tid)
    requires Distinct(s.Ready(r)) && f !in s.Ready(p)
    ensures Distinct(Enqueue(s, f, p).Ready(r))
  {
    if r == p { AppendDistinct(s.Ready(p), [f]); }
  }

  lemma PickDistinct(s: State, w: Tid, q: Tid, code: Code, r: Tid)
    requires Distinct(s.Ready(r))
    ensures Distinct(Pick(s, w, q, code).Ready(r))
  {
    if r == q && s.Ready(q) != [] { TailKeeps(s.Ready(q), 0); }
  }

  lemma FredDistinct(s: State, w: Tid, f: Fred, a: Act, r: Tid)
    requires Distinct(s.Ready(r))
    ensures Distinct(FredStep(s, w, f, a).Ready(r))
  {
    if (a.Take? || a.Finish?) && r == a.q && s.Ready(r) != [] { TailKeeps(s.Ready(r), 0); }
  }

  lemma WorkerDistinct(s: State, w: Tid, a: Act, r: Tid)
    requires Distinct(s.Ready(r))
    requires s.Pc(w).Post? || s.Pc(w).PostEnqueue? ==> s.Pc(w).prev !in s.Ready(Home(a, w))
    ensures Distinct(WorkerStep(s, w, a).Ready(r))
  {
    match s.Pc(w)
    case Free =>
      if s.Cur(w).The? { FredDistinct(s, w, s.Cur(w).f, a, r); }
      else if a.Take? { PickDistinct(s, w, a.q, FromIdle, r); }
    case Chosen(next, code) =>
    case Post(f, code) => EnqueueDistinct(s, f, Home(a, w), r);
    case PostEnqueue(f) => EnqueueDistinct(s, f, Home(a, w), r);
  }

  lemma WorkerKeeps(s: State, w: Tid, a: Act)
    requires Inv(s)
    ensures Inv(WorkerStep(s, w, a))
  {
    var s' := WorkerStep(s, w, a);
    var p := Home(a, w);
    assert Busy(s, w);
    assert s.Pc(w).Post? || s.Pc(w).PostEnqueue? ==> Located(s, s.Pc(w).prev, w) && Located(s, s.Pc(w).prev, p);
    forall r ensures Distinct(s'.Ready(r)) { assert Distinct(s.Ready(r)); WorkerDistinct(s, w, a, r); }
    forall g ensures Lawful(s'.Of(g)) { WorkerLawful(s, w, a, g); }
    forall g, u ensures Located(s', g, u) { WorkerLocated(s, w, a, g, u); }
    forall u ensures Busy(s', u) { WorkerBusy(s, w, a, u); }
  }

  lemma WorkerLawful(s: State, w: Tid, a: Act, g: Fred)
    requires Inv(s)
    ensures Lawful(WorkerStep(s, w, a).Of(g))
  {
    assert Busy(s, w) && Lawful(s.Of(g)) && Located(s, g, w);
    assert a.Take? || a.Finish? ==> Located(s, Head(s, a.q), a.q) && Lawful(s.Of(Head(s, a.q)));
    match s.Pc(w)
    case Free =>
      if s.Cur(w).The? {
        assert Lawful(s.Of(s.Cur(w).f)) && Located(s, s.Cur(w).f, w);
        FredLawful(s, w, s.Cur(w).f, a, g);
      }
    case Chosen(next, code) => SwitchLawful(s, w, g);
    case Post(f, code) => PostLawful(s, w, Home(a, w), g);
    case PostEnqueue(f) => EnqueueLawful(s, w, Home(a, w), g);
  }

  lemma WorkerLocated(s: State, w: Tid, a: Act, g: Fred, u: Tid)
    requires Inv(s)
    ensures Located(WorkerStep(s, w, a), g, u)
  {
    var p := Home(a, w);
    assert Busy(s, w) && Located(s, g, w) && Located(s, g, u) && Located(s, g, p);
    if a.Take? || a.Finish? {
      assert Located(s, Head(s, a.q), a.q) && Located(s, Head(s, a.q), u) && Located(s, g, a.q) && Distinct(s.Ready(a.q));
    }
    assert a.Resume? ==> Lawful(s.Of(a.f)) && Located(s, a.f, u);
    match s.Pc(w)
    case Free =>
      if s.Cur(w).The? { FredLocated(s, w, s.Cur(w).f, a, g, u); }
      else if a.Take? && s.Ready(a.q) != [] { PickLocated(s, s, w, a.q, FromIdle, g, u); }
    case Chosen(next, code) => SwitchLocated(s, w, g, u);
    case Post(f, code) => PostLocated(s, w, p, g, u);
    case PostEnqueue(f) => EnqueueLocated(s, w, f, p, g, u);
  }

  lemma WorkerBusy(s: State, w: Tid, a: Act, u: Tid)
    requires Inv(s)
    ensures Busy(WorkerStep(s, w, a), u)
  {
    assert Busy(s, w) && Busy(s, u);
    assert a.Take? || a.Finish? ==> Located(s, Head(s, a.q), a.q);
    assert s.Cur(u).The? ==> Located(s, s.Cur(u).f, u) && Located(s, s.Cur(u).f, w);
    match s.Pc(w)
    case Free =>
      if s.Cur(w).The? {
        var f := s.Cur(w).f;
        assert Lawful(s.Of(f)) && Located(s, f, w) && Located(s, f, u) && (a.Resume? ==> Lawful(s.Of(a.f)));
        if u == w { FredOwnBusy(s, w, f, a); } else { FredBusy(s, w, f, a, u); }
      }
    case Chosen(next, code) =>
      assert next.The? ==> Located(s, next.f, w) && Lawful(s.Of(next.f));
      SwitchBusy(s, w, u);
    case Post(f, code) =>
      assert Located(s, f, w) && Located(s, f, u);
      PostBusy(s, w, Home(a, w), u);
    case PostEnqueue(f) => EnqueueBusy(s, w, Home(a, w), u);
  }

  lemma AgentKeeps(s: State, t: Tid, a: Act)
    requires Inv(s)
    ensures Inv(AgentStep(s, t, a))
  {
    var s' := AgentStep(s, t, a);
    var p := Home(a, t);
    assert s.Hand(t).The? ==> Located(s, s.Hand(t).f, t) && Located(s, s.Hand(t).f, p);
    forall r ensures Distinct(s'.Ready(r)) {
      assert Distinct(s.Ready(r));
      if s.Hand(t).The? { EnqueueDistinct(s, s.Hand(t).f, p, r); }
    }
    forall g ensures Lawful(s'.Of(g)) { assert Lawful(s.Of(g)); AgentLawful(s, t, a, g); }
    forall g, u ensures Located(s', g, u) {
      assert Located(s, g, t) && Located(s, g, u) && Located(s, g, p);
      assert a.Resume? ==> Lawful(s.Of(a.f)) && Located(s, a.f, u);
      AgentLocated(s, t, a, g, u);
    }
    forall u ensures Busy(s', u) { assert Busy(s, u); AgentBusy(s, t, a, u); }
  }

  // ------------------------------------------------------------- the theorems

  function After(sched: seq<(Actor, Act)>): State {
    if sched == [] then Init()
    else Step(After(sched[..|sched| - 1]), sched[|sched| - 1].0, sched[|sched| - 1].1)
  }

  lemma {:induction false} EveryRun(sched: seq<(Actor, Act)>)
    ensures Inv(After(sched))
  {
    if sched == [] {
      InitInv();
    } else {
      EveryRun(sched[..|sched| - 1]);
      var s, who, a := After(sched[..|sched| - 1]), sched[|sched| - 1].0, sched[|sched| - 1].1;
      if who.Worker? { WorkerKeeps(s, who.w, a); } else { AgentKeeps(s, who.a, a); }
    }
  }

  /** runState takes its three values only, and none of the assertions on it can fail: in
      resume, in postSuspend, and when a fred is destroyed. */
  lemma {:induction false} RunStateLegal(sched: seq<(Actor, Act)>, f: Fred, w: Tid)
    ensures var s := After(sched); var x := s.Of(f);
      && (x.runState == PARKED || x.runState == RUNNING || x.runState == RESUMED_EARLY)
      && (x.token.Pending? ==> x.runState == PARKED || x.runState == RUNNING)
      && (s.Pc(w) == Post(f, Suspend) ==> x.runState == RUNNING || x.runState == RESUMED_EARLY)
      && (s.Pc(w) == Post(f, Terminate) ==> x.runState == RUNNING)
  {
    EveryRun(sched);
    var s := After(sched);
    assert Lawful(s.Of(f)) && Busy(s, w);
  }

  /** A stack is used by one worker only, and a fred in a ready queue, in an agent's hands
      or parked has its stack unused; no fred is in two places of the queues. */
  lemma {:induction false} OnePlace(sched: seq<(Actor, Act)>, f: Fred, u: Tid, w: Tid)
    ensures var s := After(sched);
      && (s.Cur(u) == The(f) && s.Cur(w) == The(f) ==> u == w)
      && (f in s.Ready(u) && f in s.Ready(w) ==> u == w)
      && (f in s.Ready(u) ==> s.Cur(w) != The(f) && s.Hand(w) != The(f))
      && (s.Hand(u) == The(f) ==> s.Cur(w) != The(f) && (s.Hand(w) == The(f) ==> u == w))
      && (s.Of(f).runState == PARKED ==> s.Cur(w) != The(f) && f !in s.Ready(w) && s.Hand(w) != The(f))
      && Distinct(s.Ready(w))
  {
    EveryRun(sched);
    var s := After(sched);
    assert Located(s, f, u) && Located(s, f, w) && Lawful(s.Of(f));
  }

  /** A worker never switches to the fred it leaves, nor to one whose stack is in use. */
  lemma {:induction false} SwitchToIdleStack(sched: seq<(Actor, Act)>, w: Tid, u: Tid)
    requires After(sched).Pc(w).Chosen? && After(sched).Pc(w).next.The?
    ensures var s := After(sched); s.Cur(u) != s.Pc(w).next && (s.Pc(u).Post? ==> s.Pc(u).prev != s.Pc(w).next.f)
  {
    EveryRun(sched);
    var s := After(sched);
    var f := s.Pc(w).next.f;
    assert Located(s, f, w) && Located(s, f, u);
  }

  /** Each resume leads to one return from suspend, and it is never lost: while it has not
      returned the fred is not parked. */
  lemma {:induction false} ResumesReturnOnce(sched: seq<(Actor, Act)>, f: Fred)
    ensures var x := After(sched).Of(f);
      && x.finished <= x.resumes <= x.finished + 1
      && (x.resumes == x.finished + 1 ==> x.runState != PARKED && !x.loc.Away?)
  {
    EveryRun(sched);
    assert Lawful(After(sched).Of(f));
  }

  /** In every run a suspension that is resumed before the switch returns without parking, and
      one that is resumed after it is enqueued; no announced suspension is lost. */
  lemma {:induction false} ParkedIffUnresumed(sched: seq<(Actor, Act)>, f: Fred)
    ensures var x := After(sched).Of(f);
      && (x.stage.Out? ==> (x.loc.Away? <==> x.token.Pending?))
      && (x.stage.Out? && x.token.Given? ==> x.loc.On? || x.loc.Picked? || x.loc.Switched? || x.loc.Carried? || x.loc.Queued?)
      && (!x.stage.Out? ==> !x.loc.Away?)
  {
    EveryRun(sched);
    assert Lawful(After(sched).Of(f));
  }

  /** No deadlock: a worker in the middle of a switch can always go on, ... */
  lemma {:induction false} SwitchGoesOn(sched: seq<(Actor, Act)>, w: Tid, a: Act)
    requires !After(sched).Pc(w).Free?
    ensures WorkerStep(After(sched), w, a).Pc(w) != After(sched).Pc(w)
  {
    EveryRun(sched);
    assert Busy(After(sched), w);
    StepGoesOn(After(sched), w, a);
  }

  lemma StepGoesOn(s: State, w: Tid, a: Act)
    requires !s.Pc(w).Free?
    ensures WorkerStep(s, w, a).Pc(w) != s.Pc(w)
  {}

  /** ... so can one whose fred is in suspend: the fred returns exactly if it has been
      resumed, and switches otherwise ... */
  lemma {:induction false} SuspendGoesOn(sched: seq<(Actor, Act)>, w: Tid, a: Act)
    requires var s := After(sched); s.Pc(w).Free? && s.Cur(w).The? && !s.Of(s.Cur(w).f).stage.Code? && !a.Enter?
    ensures var s := After(sched); var f := s.Cur(w).f;
      && (s.Of(f).token.Given? <==> FredStep(s, w, f, a).Of(f) == Returned(s.Of(f)))
      && (s.Of(f).token.Given? || FredStep(s, w, f, a).Pc(w).Chosen?)
  {
    EveryRun(sched);
    var s := After(sched);
    var f := s.Cur(w).f;
    assert Busy(s, w) && Lawful(s.Of(f)) && Located(s, f, w);
    ReturnsIff(s, w, f, a);
  }

  lemma ReturnsIff(s: State, w: Tid, f: Fred, a: Act)
    requires s.Pc(w).Free? && Lawful(s.Of(f)) && s.Of(f).loc == On(w) && !a.Enter?
    requires s.Of(f).stage.Spin? || s.Of(f).stage.Out?
    ensures s.Of(f).token.Given? <==> FredStep(s, w, f, a).Of(f) == Returned(s.Of(f))
    ensures s.Of(f).token.Given? || FredStep(s, w, f, a).Pc(w).Chosen?
  {}

  /** ... and a resumer with a fred in its hands. */
  lemma {:induction false} ResumeGoesOn(sched: seq<(Actor, Act)>, t: Tid, a: Act)
    requires After(sched).Hand(t).The?
    ensures var s, s' := After(sched), AgentStep(After(sched), t, a);
      s'.Hand(t).Nobody? && s'.Ready(Home(a, t)) == s.Ready(Home(a, t)) + [s.Hand(t).f]
  {}

  // ------------------------------------------------- calls that run undisturbed

  /** n steps of worker w while nobody else moves. */
  function Alone(s: State, w: Tid, a: Act, n: nat): State
    decreases n
  {
    if n == 0 then s else WorkerStep(Alone(s, w, a, n - 1), w, a)
  }

  /** The idle fred switches to the first fred of a queue. */
  lemma IdleTakes(s: State, w: Tid, q: Tid)
    requires s.Pc(w).Free? && s.Cur(w).Nobody? && s.Ready(q) != []
    ensures var s', g := Alone(s, w, Take(q), 2), s.Ready(q)[0];
      s'.Pc(w).Free? && s'.Cur(w) == The(g) && s'.Ready(q) == s.Ready(q)[1..] && s'.Of(g).loc == On(w)
  {
    assert Alone(s, w, Take(q), 1).Pc(w) == Chosen(The(s.Ready(q)[0]), FromIdle);
  }

  /** A fred in its own code, about to give the worker to another. */
  predicate Runs(s: State, w: Tid, f: Fred) {
    s.Pc(w).Free? && s.Cur(w) == The(f) && s.Of(f).stage.Code?
  }

  /** A yield switches to the first fred of a queue, and the old one goes to the end of its
      own queue. */
  lemma YieldRotates(s: State, w: Tid, f: Fred, q: Tid)
    requires Runs(s, w, f) && s.Ready(q) != [] && s.Ready(q)[0] != f
    ensures var s', g := Alone(s, w, Take(q), 3), s.Ready(q)[0];
      && s'.Pc(w).Free? && s'.Cur(w) == The(g) && s'.Of(f).loc == Queued(w)
      && s'.Ready(w) == (if q == w then s.Ready(w)[1..] else s.Ready(w)) + [f]
      && (q != w ==> s'.Ready(q) == s.Ready(q)[1..])
  {
    assert Alone(s, w, Take(q), 1).Pc(w) == Chosen(The(s.Ready(q)[0]), Yield);
    assert Alone(s, w, Take(q), 2).Pc(w) == Post(f, Yield);
  }

  /** A suspension that nobody has resumed parks the fred. */
  lemma SuspendParks(s: State, w: Tid, f: Fred, q: Tid)
    requires s.Pc(w).Free? && s.Cur(w) == The(f) && s.Of(f).stage.Spin? && s.Of(f).runState == RUNNING
    requires s.Ready(q) != [] ==> s.Ready(q)[0] != f
    ensures var s' := Alone(s, w, Take(q), 3);
      && s'.Pc(w).Free? && s'.Of(f).runState == PARKED && s'.Of(f).stage.Out? && s'.Of(f).loc.Away?
      && s'.Cur(w) == (if s.Ready(q) != [] then The(s.Ready(q)[0]) else Nobody)
  {
    assert Alone(s, w, Take(q), 1).Pc(w) == Chosen(if s.Ready(q) != [] then The(s.Ready(q)[0]) else Nobody, Suspend);
    assert Alone(s, w, Take(q), 2).Pc(w) == Post(f, Suspend);
  }

  /** One that is resumed after the last look but before the switch is over is enqueued by
      the post function. */
  lemma EarlyIsEnqueued(s: State, w: Tid, f: Fred, p: Tid)
    requires s.Pc(w) == Post(f, Suspend) && s.Of(f).runState == RESUMED_EARLY
    ensures var s' := Alone(s, w, Dest(p), 2);
      s'.Pc(w).Free? && s'.Of(f).runState == RUNNING && s'.Of(f).loc == Queued(p) && s'.Ready(p) == s.Ready(p) + [f] && s'.Cur(w) == s.Cur(w)
  {
    assert Alone(s, w, Dest(p), 1).Pc(w) == PostEnqueue(f);
  }

  /** A resume of a parked fred enqueues it, and of one not parked yet only marks it; a
      direct switch leaves the resumer in a queue. */
  lemma ResumeEnqueues(s: State, t: Tid, f: Fred, p: Tid)
    requires s.Hand(t).Nobody? && s.Of(f).token.Pending?
    ensures var s' := AgentStep(s, t, Resume(f));
      && s'.Of(f).runState == s.Of(f).runState + 1 && s'.Of(f).token.Given?
      && s'.Hand(t) == (if s.Of(f).runState == PARKED then The(f) else Nobody)
      && (s.Of(f).runState == PARKED ==>
            AgentStep(s', t, Dest(p)).Ready(p) == s.Ready(p) + [f] && AgentStep(s', t, Dest(p)).Of(f).loc == Queued(p))
  {}

  lemma DirectSwitches(s: State, w: Tid, f: Fred, g: Fred)
    requires Runs(s, w, f) && g != f && s.Of(g).token.Pending? && s.Of(g).runState == PARKED
    ensures var s' := Alone(s, w, Resume(g), 3);
      s'.Pc(w).Free? && s'.Cur(w) == The(g) && s'.Of(g).loc == On(w) && s'.Of(g).runState == RUNNING &&
      s'.Ready(w) == s.Ready(w) + [f] && s'.Of(f).loc == Queued(w)
  {
    assert Alone(s, w, Resume(g), 1).Pc(w) == Chosen(The(g), Direct);
    assert Alone(s, w, Resume(g), 2).Pc(w) == Post(f, Direct);
  }

  /** A fred announces its suspension and enters suspend. */
  lemma Suspends(s: State, w: Tid, f: Fred)
    requires Runs(s, w, f) && s.Of(f).token.Unset?
    ensures var s' := WorkerStep(WorkerStep(s, w, Announce), w, Enter);
      s'.Of(f).stage.Spin? && s'.Of(f).token.Pending? && s'.Of(f).runState == s.Of(f).runState && s'.Pc(w).Free?
  {
    assert WorkerStep(s, w, Announce).Of(f) == s.Of(f).(token := Pending);
  }

  /** A fred that terminates is never run again: the worker goes on with another. */
  lemma TerminateEnds(s: State, w: Tid, f: Fred, q: Tid)
    requires Runs(s, w, f) && s.Of(f).token.Unset? && (s.Ready(q) != [] ==> s.Ready(q)[0] != f)
    ensures var s' := Alone(s, w, Finish(q), 3);
      && s'.Pc(w).Free? && s'.Of(f).loc.Dead?
      && s'.Cur(w) == (if s.Ready(q) != [] then The(s.Ready(q)[0]) else Nobody)
  {
    assert Alone(s, w, Finish(q), 1).Pc(w) == Chosen(if s.Ready(q) != [] then The(s.Ready(q)[0]) else Nobody, Terminate);
    assert Alone(s, w, Finish(q), 2).Pc(w) == Post(f, Terminate);
  }

  /** A new fred is enqueued by whoever starts it. */
  lemma StartEnqueues(s: State, t: Tid, f: Fred, p: Tid)
    requires s.Hand(t).Nobody? && s.Of(f).loc.New?
    ensures var s' := AgentStep(AgentStep(s, t, Start(f)), t, Dest(p));
      s'.Ready(p) == s.Ready(p) + [f] && s'.Of(f).loc == Queued(p) && s'.Hand(t).Nobody?
  {
    assert AgentStep(s, t, Start(f)).Hand(t) == The(f);
  }
}
