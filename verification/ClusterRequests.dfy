/**
  The chains of requests, request by request.  A request is spoiled when the application submits a payload
  that reads as one of its stages, or when its id comes round again; nothing else can disturb it.
 */
module ClusterRequests {
  import opened Counting
  import opened Tasks
  import opened Stages
  import opened Cluster
  import opened ClusterNode
  import opened ClusterSafety
  import opened ClusterTheorems

  // ---------------------------------------------------------------- which calls spoil a request

  /** The payload reads as a stage of request `r`. */
  ghost predicate ReadsAs(payload: Bytes, r: nat) {
    |payload| >= STAGE_SIZE && StageOf(payload).Some? && StageOf(payload).value.requestId == r
  }

  /** After this step the observer of node `n` can be misled about request `r`. */
  ghost predicate Spoils(x: Node, a: Action, n: nat, r: nat) {
    || (a.SubmitPortable? && a.n == n && ReadsAs(a.payload, r))
    || (a.OpenRequest? && a.n == n && x.jobs.nextRequest == r && r in x.jobs.done)
  }

  /** Some step of the run did that. */
  ghost predicate EverSpoiled(s: State, steps: seq<Action>, n: nat, r: nat) {
    exists k :: 0 <= k < |steps| && n < |Run(s, steps[..k]).nodes|
                && Spoils(Run(s, steps[..k]).nodes[n], steps[k], n, r)
  }

  lemma EverSpoiledStep(s: State, steps: seq<Action>, n: nat, r: nat)
    requires steps != [] && n < |Run(s, steps[..|steps| - 1]).nodes|
    ensures EverSpoiled(s, steps, n, r) <==>
              || EverSpoiled(s, steps[..|steps| - 1], n, r)
              || Spoils(Run(s, steps[..|steps| - 1]).nodes[n], steps[|steps| - 1], n, r)
  {
    hide Run, Spoils;
    var last := |steps| - 1;
    forall k | 0 <= k < last
      ensures steps[..last][..k] == steps[..k] && steps[..last][k] == steps[k]
    {}
    if EverSpoiled(s, steps[..last], n, r) {
      var k :| 0 <= k < last && n < |Run(s, steps[..last][..k]).nodes|
               && Spoils(Run(s, steps[..last][..k]).nodes[n], steps[..last][k], n, r);
      assert Spoils(Run(s, steps[..k]).nodes[n], steps[k], n, r);
    }
  }

  /** A request is spoiled from the moment a payload that reads as one of its stages is submitted at its node,
      or its id comes round again there, and only then. */
  lemma {:induction false} SpoiledIff(s: State, steps: seq<Action>, n: nat, r: nat)
    requires Init(s) && n < |s.nodes|
    ensures n < |Run(s, steps).nodes|
    ensures r in Run(s, steps).nodes[n].jobs.spoiled <==> EverSpoiled(s, steps, n, r)
    decreases |steps|
  {
    hide Next, Spoils;
    if steps != [] {
      var last := |steps| - 1;
      SpoiledIff(s, steps[..last], n, r);
      SpoilStep(Run(s, steps[..last]), steps[last], n, r);
      EverSpoiledStep(s, steps, n, r);
      hide EverSpoiled;
    }
  }

  lemma SpoilStep(s: State, a: Action, n: nat, r: nat)
    requires n < |s.nodes|
    ensures |Next(s, a).nodes| == |s.nodes|
    ensures r in Next(s, a).nodes[n].jobs.spoiled <==> r in s.nodes[n].jobs.spoiled || Spoils(s.nodes[n], a, n, r)
  {
    hide SeenStage, StageOf, EncodedStage, Observe, Reassign;
    if a.SubmitPortable? || a.SubmitClosure? {
      SpoilSubmit(s, a, n, r);
    } else if a.ObserveTask? {
      if Enabled(s, a) {
        ObserveSpoils(s.nodes[a.n], a.id);
      }
    } else if a.ReassignTask? {
      if Enabled(s, a) {
        ReassignSpoils(s.nodes[a.n], a.id);
      }
    } else if a.OpenRequest? || a.SubmitFirstStage? {
      SpoilRequest(s, a, n, r);
    } else if a.TrackAndSend? || a.DeliverOffer? || a.LoseOffer? || a.RunTask? || a.DeliverResult? {
      NetworkKeepsJobs(s, a, n);
    } else {
      MoveKeepsJobs(s, a, n);
    }
  }

  lemma NamedIff(payload: Bytes, r: nat)
    ensures r in Named(Portable(payload)) <==> ReadsAs(payload, r)
  {
    StageIffLong(payload);
    hide StageOf;
  }

  lemma SpoilSubmit(s: State, a: Action, n: nat, r: nat)
    requires n < |s.nodes| && (a.SubmitPortable? || a.SubmitClosure?)
    ensures |Next(s, a).nodes| == |s.nodes|
    ensures r in Next(s, a).nodes[n].jobs.spoiled <==> r in s.nodes[n].jobs.spoiled || Spoils(s.nodes[n], a, n, r)
  {
    if a.SubmitPortable? {
      NamedIff(a.payload, r);
      hide Named, ReadsAs;
    }
    hide StageOf;
  }

  lemma ReassignSpoils(x: Node, id: nat)
    requires id in x.ledger && x.ledger[id].work.Portable?
    ensures Reassign(x, id).jobs.spoiled == x.jobs.spoiled
  {
    hide SeenStage;
  }

  lemma SpoilRequest(s: State, a: Action, n: nat, r: nat)
    requires n < |s.nodes| && (a.OpenRequest? || a.SubmitFirstStage?)
    ensures |Next(s, a).nodes| == |s.nodes|
    ensures r in Next(s, a).nodes[n].jobs.spoiled <==> r in s.nodes[n].jobs.spoiled || Spoils(s.nodes[n], a, n, r)
  {
    hide EncodedStage;
  }

  lemma NetworkKeepsJobs(s: State, a: Action, n: nat)
    requires n < |s.nodes| && (a.TrackAndSend? || a.DeliverOffer? || a.LoseOffer? || a.RunTask? || a.DeliverResult?)
    ensures |Next(s, a).nodes| == |s.nodes| && Next(s, a).nodes[n].jobs == s.nodes[n].jobs
  {}

  lemma MoveKeepsJobs(s: State, a: Action, n: nat)
    requires n < |s.nodes|
    requires a.PushTask? || a.StartTask? || a.PopForThief? || a.CountExecuted? || a.CollectTask? || a.FinishTask?
    ensures |Next(s, a).nodes| == |s.nodes| && Next(s, a).nodes[n].jobs == s.nodes[n].jobs
  {}

  // ---------------------------------------------------------------- one live stage

  /** Entry `id` will make the observer advance request `r`. */
  ghost predicate Carries(x: Node, id: nat, r: nat) {
    id in x.ledger && Pending(x.ledger[id]).Some? && Pending(x.ledger[id]).value.requestId == r
  }

  /** An unfinished request has exactly one live stage; a Done request has none, and neither has one whose
      submission is still under way. */
  ghost predicate OneLive(x: Node, r: nat)
    requires r in x.jobs.done
  {
    && (x.jobs.done[r] || r in x.jobs.opening ==> forall id :: !Carries(x, id, r))
    && (!x.jobs.done[r] && r !in x.jobs.opening ==>
          exists id :: Carries(x, id, r) && forall id' :: Carries(x, id', r) ==> id' == id)
  }

  lemma LiveStageOf(x: Node, r: nat)
    requires r in x.jobs.done && r !in x.jobs.spoiled
    requires NodeOk(x)
    ensures OneLive(x, r)
  {
    hide BooksOk, RunsAccounted, Pending, AdvancesOk, DoneRequests;
    assert RequestOk(x.jobs, r);
    if !x.jobs.done[r] && r !in x.jobs.opening {
      assert r in x.jobs.carrier;
      assert Carries(x, x.jobs.carrier[r], r);
    }
  }

  lemma CarriesAfterSubmit(x: Node, payload: Bytes, r: nat, id: nat)
    requires x.nextId !in x.ledger
    ensures Carries(SubmitApp(x, Portable(payload)), id, r)
       <==> Carries(x, id, r) || (id == x.nextId && ReadsAs(payload, r))
  {
    var e := Entry(Entering(true), Portable(payload));
    NamedIff(payload, r);
    NamedPending(e);
    hide Named, Pending, ReadsAs, SeenStage;
    assert SubmitApp(x, Portable(payload)).ledger == x.ledger[x.nextId := e];
  }

  /** One entry carrying `r` more: then the request has no longer what it should. */
  lemma OneMoreIsTooMany(x: Node, x': Node, r: nat, id': nat)
    requires r in x.jobs.done && OneLive(x, r) && id' !in x.ledger
    requires x'.jobs.done == x.jobs.done && x'.jobs.opening == x.jobs.opening
    requires forall id :: Carries(x', id, r) <==> Carries(x, id, r) || id == id'
    ensures !OneLive(x', r)
  {
    hide Pending;
    assert Carries(x', id', r) && !Carries(x, id', r);
    if !x.jobs.done[r] && r !in x.jobs.opening {
      var id :| Carries(x, id, r);
      assert Carries(x', id, r);
    }
  }

  lemma SameCarriers(x: Node, x': Node, r: nat)
    requires r in x.jobs.done && OneLive(x, r)
    requires x'.jobs.done == x.jobs.done && x'.jobs.opening == x.jobs.opening
    requires forall id :: Carries(x', id, r) <==> Carries(x, id, r)
    ensures OneLive(x', r)
  {
    hide Carries;
    if !x.jobs.done[r] && r !in x.jobs.opening {
      var id :| Carries(x, id, r) && forall id' :: Carries(x, id', r) ==> id' == id;
      assert Carries(x', id, r) && forall id' :: Carries(x', id', r) ==> id' == id;
    }
  }

  /**
    The exact condition at a submission: a request keeps its one live stage if and only if the payload
    does not read as one of its stages, which no payload of less than 22 bytes does.
   */
  lemma SubmitKeepsOneLiveIff(x: Node, payload: Bytes, r: nat)
    requires r in x.jobs.done && r !in x.jobs.spoiled
    requires NodeOk(x)
    ensures OneLive(SubmitApp(x, Portable(payload)), r)
       <==> |payload| < STAGE_SIZE || (StageIffLong(payload); StageOf(payload).value.requestId != r)
    ensures r in SubmitApp(x, Portable(payload)).jobs.spoiled <==> ReadsAs(payload, r)
  {
    StageIffLong(payload);
    LiveStageOf(x, r);
    FreshId(x);
    NamedIff(payload, r);
    hide NodeOk, Named, Pending, StageOf;
    var x' := SubmitApp(x, Portable(payload));
    forall id
      ensures Carries(x', id, r) <==> Carries(x, id, r) || (id == x.nextId && ReadsAs(payload, r))
    {
      CarriesAfterSubmit(x, payload, r, id);
    }
    assert ReadsAs(payload, r) <==> !(|payload| < STAGE_SIZE || StageOf(payload).value.requestId != r);
    hide Carries, OneLive, ReadsAs;
    if ReadsAs(payload, r) {
      OneMoreIsTooMany(x, x', r, x.nextId);
    } else {
      SameCarriers(x, x', r);
    }
  }

  // ---------------------------------------------------------------- advances

  /** Request `r` is advanced through its stages in order, each once, and is Done exactly after all four. */
  ghost predicate AdvancedInOrder(j: Jobs, r: nat) {
    && (forall a, b :: 0 <= a < b < |j.advances| && j.advances[a].request == r ==> j.advances[a] != j.advances[b])
    && (forall k: nat {:trigger Advance(r, k)} :: Advance(r, k) in j.advances ==> r in j.done && k <= 3)
    && (forall k: nat {:trigger Advance(r, k)} :: Advance(r, k) in j.advances ==>
          forall k': nat {:trigger Advance(r, k')} :: k' < k ==> Advance(r, k') in j.advances)
    && (r in j.done ==>
          (j.done[r] <==> forall k: nat {:trigger Advance(r, k)} :: k <= 3 ==> Advance(r, k) in j.advances))
  }

  /** No stage of a request that nothing has spoiled is ever advanced twice, and it is Done exactly when all
      four were advanced. */
  lemma AdvancedExactlyOnce(s: State, steps: seq<Action>, n: nat, r: nat)
    requires n < |Run(s, steps).nodes| && r !in Run(s, steps).nodes[n].jobs.spoiled
    requires Init(s)
    ensures AdvancedInOrder(Run(s, steps).nodes[n].jobs, r)
  {
    hide *;
    RunInv(s, steps);
    NodeAt(Run(s, steps), n);
    JobsOfNode(Run(s, steps).nodes[n], r);
    AdvancesOf(Run(s, steps).nodes[n].jobs, r);
  }

  lemma JobsOfNode(x: Node, r: nat)
    requires NodeOk(x) && r !in x.jobs.spoiled
    ensures RequestOk(x.jobs, r) && AdvancesOk(x.jobs, r)
  {
    hide BooksOk, RunsAccounted, DoneCounted, ChainOk;
    hide RequestOk, AdvancesOk;
  }

  lemma AdvancesOf(j: Jobs, r: nat)
    requires RequestOk(j, r) && AdvancesOk(j, r)
    ensures AdvancedInOrder(j, r)
  {
    if r in j.done && !j.done[r] {
      assert Advance(r, 3) !in j.advances;
    }
  }
}
