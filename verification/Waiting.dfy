/** How long a visitor of a live proxy waits: nothing but a stream or a failed notification
    takes it out of the queue, and a full queue turns everybody else away
    (internal/server/server.go, internal/server/session.go). */
module Waiting {
  import opened Wrappers
  import opened Config
  import opened Registry
  import opened RegistryLaws
  import opened Handoff
  import opened HandoffLaws

  // ---- A proxy that stays live ----

  /** Known and not live: never live again. */
  predicate Gone(w: World, p: Proxy) {
    p in w.lanes && !Live(w.reg, p)
  }

  lemma GoneStays(cfg: Settings, w: World, p: Proxy, a: Action)
    requires AllValid(cfg.ranges) && WorldInv(cfg, w) && Gone(w, p)
    ensures Gone(Act(cfg, w, a), p)
  {
    hide Live, Step, LaneSound, VisitorSound, StreamSound, Values;
    hide OwnersAgree, PortsAgree, HostsAgree, SessionsSound, ProxiesSound;
    if a.Registry? {
      StepLive(cfg, w.reg, a.e);
    }
  }

  /** A known proxy that is live after a step was live before it. */
  lemma WasLive(cfg: Settings, w: World, p: Proxy, a: Action)
    requires AllValid(cfg.ranges) && WorldInv(cfg, w) && p in w.lanes && Live(Act(cfg, w, a).reg, p)
    ensures Live(w.reg, p) && p !in w.draining
  {
    hide Live, Act, Inv, LaneSound, VisitorSound, StreamSound;
    if !Live(w.reg, p) {
      GoneStays(cfg, w, p, a);
    }
  }

  /** A take-back after a failed notification of a visitor of `p`. */
  predicate TakesBackAt(w: World, p: Proxy, a: Action) {
    a.TakeBack? && At(w, a.v, NotifyFailed) && w.visitors[a.v].proxy == p
  }

  /** What takes a visitor out of the queue of a live proxy: a stream that received it, or
      such a take-back. */
  predicate LiveExit(w: World, p: Proxy, a: Action, e: Exit) {
    match e.how
    case ByDrain => false
    case ByStream(d) => a == Dequeue(d)
    case ByTakeBack => TakesBackAt(w, p, a)
  }

  /** One step at a queue: it keeps its exits or gains one at the end. */
  lemma LiveStep(cfg: Settings, w: World, p: Proxy, a: Action)
    requires p in w.lanes && p !in w.draining
    ensures var w' := Act(cfg, w, a);
      p in w'.lanes &&
      (w'.lanes[p].left == w.lanes[p].left ||
       exists e :: LiveExit(w, p, a, e) && w'.lanes[p].left == w.lanes[p].left + [e])
  {
    hide Live, Step, Values;
    var w' := Act(cfg, w, a);
    if w.lanes[p].queue != [] && w'.lanes[p].left != w.lanes[p].left {
      var how := if a.TakeBack? then ByTakeBack else ByStream(a.d);
      assert LiveExit(w, p, a, Exit(w.lanes[p].queue[0], how));
    }
  }

  /** The action number `k` of a run from `w` is the cause of the exit. */
  ghost predicate CausedAt(cfg: Settings, w: World, p: Proxy, actions: seq<Action>, k: int, e: Exit) {
    0 <= k < |actions| && LiveExit(Acts(cfg, w, actions[..k]), p, actions[k], e)
  }

  ghost predicate Caused(cfg: Settings, w: World, p: Proxy, actions: seq<Action>, e: Exit) {
    exists k :: CausedAt(cfg, w, p, actions, k, e)
  }

  ghost predicate ExitsCaused(cfg: Settings, w: World, p: Proxy, now: seq<Exit>, actions: seq<Action>)
    requires p in w.lanes
  {
    var was := w.lanes[p].left;
    was <= now && forall i :: |was| <= i < |now| ==> Caused(cfg, w, p, actions, now[i])
  }

  lemma ExitsMore(cfg: Settings, w: World, p: Proxy, mid: seq<Exit>, now: seq<Exit>, init: seq<Action>, a: Action)
    requires p in w.lanes && ExitsCaused(cfg, w, p, mid, init)
    requires now == mid || exists e :: LiveExit(Acts(cfg, w, init), p, a, e) && now == mid + [e]
    ensures ExitsCaused(cfg, w, p, now, init + [a])
  {
    hide LiveExit, Acts, Caused;
    forall i | |w.lanes[p].left| <= i < |now| ensures Caused(cfg, w, p, init + [a], now[i]) {
      if i < |mid| {
        assert Caused(cfg, w, p, init, mid[i]);
        CausedMore(cfg, w, p, init, a, mid[i]);
      } else {
        CausedLast(cfg, w, p, init, a, now[i]);
      }
    }
  }

  lemma CausedMore(cfg: Settings, w: World, p: Proxy, init: seq<Action>, a: Action, e: Exit)
    requires Caused(cfg, w, p, init, e)
    ensures Caused(cfg, w, p, init + [a], e)
  {
    hide LiveExit, Acts;
    var k :| CausedAt(cfg, w, p, init, k, e);
    assert (init + [a])[..k] == init[..k];
    assert CausedAt(cfg, w, p, init + [a], k, e);
  }

  lemma CausedLast(cfg: Settings, w: World, p: Proxy, init: seq<Action>, a: Action, e: Exit)
    requires LiveExit(Acts(cfg, w, init), p, a, e)
    ensures Caused(cfg, w, p, init + [a], e)
  {
    hide LiveExit, Acts;
    assert (init + [a])[..|init|] == init;
    assert CausedAt(cfg, w, p, init + [a], |init|, e);
  }

  /** Over every run in which a proxy stays live, whoever leaves its queue leaves by a
      stream that received it or by a take-back for one of its own visitors: no timeout
      does. */
  lemma {:induction false} LiveExits(cfg: Settings, w: World, p: Proxy, actions: seq<Action>)
    requires AllValid(cfg.ranges) && WorldInv(cfg, w) && p in w.lanes && Live(Acts(cfg, w, actions).reg, p)
    ensures Live(w.reg, p)
    ensures var w' := Acts(cfg, w, actions);
      p in w'.lanes && ExitsCaused(cfg, w, p, w'.lanes[p].left, actions)
    decreases |actions|
  {
    hide WorldInv, Act, Live, ExitsCaused, LiveExit;
    if actions == [] {
      NoExits(cfg, w, p);
    } else {
      var init, a := actions[..|actions| - 1], actions[|actions| - 1];
      var mid := Acts(cfg, w, init);
      assert actions == init + [a];
      LaterActsKeepInv(cfg, w, init);
      LanesStay(cfg, w, p, init);
      WasLive(cfg, mid, p, a);
      LiveExits(cfg, w, p, init);
      LiveStep(cfg, mid, p, a);
      ExitsMore(cfg, w, p, mid.lanes[p].left, Act(cfg, mid, a).lanes[p].left, init, a);
    }
  }

  lemma NoExits(cfg: Settings, w: World, p: Proxy)
    requires p in w.lanes
    ensures ExitsCaused(cfg, w, p, w.lanes[p].left, [])
  {}

  lemma {:induction false} LanesStay(cfg: Settings, w: World, p: Proxy, actions: seq<Action>)
    requires p in w.lanes
    ensures p in Acts(cfg, w, actions).lanes
    decreases |actions|
  {
    hide Act;
    if actions != [] {
      LanesStay(cfg, w, p, actions[..|actions| - 1]);
      LaneStays(cfg, Acts(cfg, w, actions[..|actions| - 1]), p, actions[|actions| - 1]);
    }
  }

  lemma LaneStays(cfg: Settings, w: World, p: Proxy, a: Action)
    requires p in w.lanes
    ensures p in Act(cfg, w, a).lanes
  {
    hide Step, Live, Values;
  }

  /** A visitor queued at a proxy that stays live is still queued, or left so. */
  lemma LiveVisitorWaits(cfg: Settings, w: World, p: Proxy, v: Conn, actions: seq<Action>)
    requires AllValid(cfg.ranges) && WorldInv(cfg, w) && p in w.lanes && v in w.lanes[p].queue
    requires Live(Acts(cfg, w, actions).reg, p)
    ensures var w' := Acts(cfg, w, actions);
      && p in w'.lanes
      && (v in w'.lanes[p].queue || exists e :: e in w'.lanes[p].left && e.conn == v && Caused(cfg, w, p, actions, e))
  {
    hide WorldInv, Live, Acts, Caused, LaneShape;
    LiveExits(cfg, w, p, actions);
    LaterActsKeepInv(cfg, w, actions);
    var w' := Acts(cfg, w, actions);
    ShapeOf(cfg, w, p);
    ShapeOf(cfg, w', p);
    EnteredStays(cfg, w, p, v, actions);
    LeavesLate(w.lanes[p], w'.lanes[p], v);
    if v !in w'.lanes[p].queue {
      var i :| |w.lanes[p].left| <= i < |w'.lanes[p].left| && w'.lanes[p].left[i].conn == v;
      assert Caused(cfg, w, p, actions, w'.lanes[p].left[i]);
    }
  }

  // ---- Nobody resets it ----

  /** Nothing but such a take-back closes anybody who waits at a live proxy. */
  lemma StaysOpen(cfg: Settings, w: World, p: Proxy, v: Conn, a: Action)
    requires WorldInv(cfg, w) && p in w.lanes && p !in w.draining && v in w.lanes[p].entered && v !in w.closed
    requires !TakesBackAt(w, p, a)
    ensures v !in Act(cfg, w, a).closed
  {
    hide Inv, LanesCover, NotifiedSound, LeftSound, VisitorSound, StreamSound, Live, Step, Values, LaneShape;
    assert LaneSound(w, p);
    if a.DrainOne? && a.p in w.lanes && w.lanes[a.p].queue != [] {
      assert LaneSound(w, a.p);
      HeadEntered(w.lanes[a.p]);
    }
    if a.TakeBack? && At(w, a.v, NotifyFailed) && w.lanes[w.visitors[a.v].proxy].queue != [] {
      assert LaneSound(w, w.visitors[a.v].proxy);
      HeadEntered(w.lanes[w.visitors[a.v].proxy]);
    }
  }

  lemma HeadEntered(l: Lane)
    requires LaneShape(l) && l.queue != []
    ensures l.queue[0] in l.entered
  {
    assert l.entered[|l.left|] == l.queue[0];
  }

  /** No visitor of `p` has a failed notification take one back during the run. */
  ghost predicate NoTakeBack(cfg: Settings, w: World, p: Proxy, actions: seq<Action>)
    decreases |actions|
  {
    actions == [] ||
    (var init, a := actions[..|actions| - 1], actions[|actions| - 1];
     NoTakeBack(cfg, w, p, init) && !TakesBackAt(Acts(cfg, w, init), p, a))
  }

  lemma {:induction false} NoneTakesBack(cfg: Settings, w: World, p: Proxy, actions: seq<Action>, k: nat)
    requires NoTakeBack(cfg, w, p, actions) && k < |actions|
    ensures !TakesBackAt(Acts(cfg, w, actions[..k]), p, actions[k])
    decreases |actions|
  {
    hide Acts, TakesBackAt;
    var init := actions[..|actions| - 1];
    if k < |init| {
      NoneTakesBack(cfg, w, p, init, k);
      assert init[..k] == actions[..k];
    }
  }

  /** So as long as no notification of the proxy's own visitors fails, it is not reset
      either: however long the run, and whatever happens at other proxies, the visitor is
      still there and open, or a stream has received it. */
  lemma NoTimeout(cfg: Settings, w: World, p: Proxy, v: Conn, actions: seq<Action>)
    requires AllValid(cfg.ranges) && WorldInv(cfg, w) && p in w.lanes && v in w.lanes[p].queue && v !in w.closed
    requires Live(Acts(cfg, w, actions).reg, p) && NoTakeBack(cfg, w, p, actions)
    ensures var w' := Acts(cfg, w, actions);
      && v !in w'.closed && p in w'.lanes
      && (v in w'.lanes[p].queue ||
          exists d :: Dequeue(d) in actions && Exit(v, ByStream(d)) in w'.lanes[p].left)
  {
    hide WorldInv, Live, Acts, NoTakeBack, TakesBackAt;
    LiveVisitorWaits(cfg, w, p, v, actions);
    OpenRun(cfg, w, p, v, actions);
    var w' := Acts(cfg, w, actions);
    if v !in w'.lanes[p].queue {
      var e :| e in w'.lanes[p].left && e.conn == v && Caused(cfg, w, p, actions, e);
      var k :| CausedAt(cfg, w, p, actions, k, e);
      NoneTakesBack(cfg, w, p, actions, k);
      assert e == Exit(v, ByStream(e.how.stream)) && actions[k] in actions;
    }
  }

  lemma {:induction false} OpenRun(cfg: Settings, w: World, p: Proxy, v: Conn, actions: seq<Action>)
    requires AllValid(cfg.ranges) && WorldInv(cfg, w) && p in w.lanes && v in w.lanes[p].queue && v !in w.closed
    requires Live(Acts(cfg, w, actions).reg, p) && NoTakeBack(cfg, w, p, actions)
    ensures v !in Acts(cfg, w, actions).closed
    decreases |actions|
  {
    hide WorldInv, Act, Live, TakesBackAt;
    if actions != [] {
      var init, a := actions[..|actions| - 1], actions[|actions| - 1];
      var mid := Acts(cfg, w, init);
      LaterActsKeepInv(cfg, w, init);
      LanesStay(cfg, w, p, init);
      WasLive(cfg, mid, p, a);
      OpenRun(cfg, w, p, v, init);
      EnteredStays(cfg, w, p, v, init);
      StaysOpen(cfg, mid, p, v, a);
    }
  }

  // ---- A full queue ----

  function PhaseOf(w: World, v: Conn): Option<Phase> {
    if v in w.visitors then Some(w.visitors[v].phase) else None
  }

  /** An arriving visitor is turned away and closed exactly when its queue is full. */
  lemma RejectedExactly(cfg: Settings, w: World, v: Conn)
    requires WorldInv(cfg, w) && At(w, v, Arrived)
    ensures var p := w.visitors[v].proxy;
      var w' := Act(cfg, w, Offer(v));
      && (PhaseOf(w', v) == Some(Rejected) <==> |QueueOf(w, p)| == 32)
      && (PhaseOf(w', v) == Some(Rejected) ==> v in w'.closed && w'.lanes == w.lanes)
      && (PhaseOf(w', v) != Some(Rejected) ==> QueueOf(w', p) == QueueOf(w, p) + [v])
  {
    hide Inv, LanesCover, VisitorSound, StreamSound;
    ShapeOf(cfg, w, w.visitors[v].proxy);
  }

  /** Everybody who came to the proxy since is turned away and closed, or still at the
      door. */
  ghost predicate TurnedAwaySince(w: World, w': World, p: Proxy) {
    forall v :: v in w'.visitors && w'.visitors[v].proxy == p && (v in w.visitors ==> w.visitors[v].phase == Arrived) ==>
      w'.visitors[v].phase == Arrived || (w'.visitors[v].phase == Rejected && v in w'.closed)
  }

  lemma FullStep(cfg: Settings, w: World, mid: World, p: Proxy, a: Action)
    requires p in mid.lanes && |mid.lanes[p].queue| == QUEUE_CAP && TurnedAwaySince(w, mid, p)
    requires p in Act(cfg, mid, a).lanes && Act(cfg, mid, a).lanes[p].left == mid.lanes[p].left
    ensures Act(cfg, mid, a).lanes[p].queue == mid.lanes[p].queue
    ensures TurnedAwaySince(w, Act(cfg, mid, a), p)
  {
    hide Act, TurnedAwaySince;
    FullStays(cfg, mid, p, a);
    FullRejects(cfg, w, mid, p, a);
  }

  lemma FullStays(cfg: Settings, w: World, p: Proxy, a: Action)
    requires p in w.lanes && |w.lanes[p].queue| == QUEUE_CAP
    requires p in Act(cfg, w, a).lanes && Act(cfg, w, a).lanes[p].left == w.lanes[p].left
    ensures Act(cfg, w, a).lanes[p].queue == w.lanes[p].queue
  {
    hide Step, Values;
  }

  lemma FullRejects(cfg: Settings, w: World, mid: World, p: Proxy, a: Action)
    requires p in mid.lanes && |mid.lanes[p].queue| == QUEUE_CAP && TurnedAwaySince(w, mid, p)
    ensures TurnedAwaySince(w, Act(cfg, mid, a), p)
  {
    hide Act;
    var w' := Act(cfg, mid, a);
    forall v | v in w'.visitors && w'.visitors[v].proxy == p && (v in w.visitors ==> w.visitors[v].phase == Arrived)
      ensures w'.visitors[v].phase == Arrived || (w'.visitors[v].phase == Rejected && v in w'.closed)
    {
      if v in mid.visitors {
        ProxyKept(cfg, mid, a, v);
      }
      FullRejectsOne(cfg, mid, p, a, v);
    }
  }

  lemma ProxyKept(cfg: Settings, w: World, a: Action, v: Conn)
    requires v in w.visitors
    ensures v in Act(cfg, w, a).visitors && Act(cfg, w, a).visitors[v].proxy == w.visitors[v].proxy
  {
    hide Step, Values, Pop;
  }

  lemma FullRejectsOne(cfg: Settings, w: World, p: Proxy, a: Action, v: Conn)
    requires p in w.lanes && |w.lanes[p].queue| == QUEUE_CAP
    requires v in Act(cfg, w, a).visitors && Act(cfg, w, a).visitors[v].proxy == p
    requires v in w.visitors ==> w.visitors[v].phase == Arrived || (w.visitors[v].phase == Rejected && v in w.closed)
    ensures var w' := Act(cfg, w, a);
      w'.visitors[v].phase == Arrived || (w'.visitors[v].phase == Rejected && v in w'.closed)
  {
    hide Step, Values, Pop;
  }

  lemma LeftGrows(cfg: Settings, w: World, p: Proxy, a: Action)
    requires p in w.lanes
    ensures p in Act(cfg, w, a).lanes && w.lanes[p].left <= Act(cfg, w, a).lanes[p].left
  {
    hide Step, Values;
  }

  lemma {:induction false} LeftGrowsRun(cfg: Settings, w: World, p: Proxy, actions: seq<Action>)
    requires p in w.lanes
    ensures p in Acts(cfg, w, actions).lanes && w.lanes[p].left <= Acts(cfg, w, actions).lanes[p].left
    decreases |actions|
  {
    hide Act;
    if actions != [] {
      LeftGrowsRun(cfg, w, p, actions[..|actions| - 1]);
      LeftGrows(cfg, Acts(cfg, w, actions[..|actions| - 1]), p, actions[|actions| - 1]);
    }
  }

  /** A full queue that nobody leaves stays as it is, and over every such run each visitor
      that comes to the proxy is turned away: one proxy's unanswered notifications close
      its door for good. */
  lemma {:induction false} FullQueueRejects(cfg: Settings, w: World, p: Proxy, actions: seq<Action>)
    requires p in w.lanes && |w.lanes[p].queue| == 32
    requires p in Acts(cfg, w, actions).lanes && Acts(cfg, w, actions).lanes[p].left == w.lanes[p].left
    ensures var w' := Acts(cfg, w, actions);
      p in w'.lanes && w'.lanes[p].queue == w.lanes[p].queue && TurnedAwaySince(w, w', p)
    decreases |actions|
  {
    hide Act;
    if actions != [] {
      var init, a := actions[..|actions| - 1], actions[|actions| - 1];
      var mid := Acts(cfg, w, init);
      LeftGrowsRun(cfg, w, p, init);
      LeftGrows(cfg, mid, p, a);
      FullQueueRejects(cfg, w, p, init);
      FullStep(cfg, w, mid, p, a);
    }
  }
}
