/**
 * The main-thread scheduler ("Loom"): an immediate list and a delayed list of
 * actions, drained once per frame by the owning thread.
 *
 * Actions are opaque tokens. What running one does, as far as the scheduler
 * can observe, is an `Effect`: the QueueOnMainThread calls it makes before it
 * ends, and whether it ends by throwing. The frame time `Time.time` is the
 * parameter `now`. The locks only serialise list mutation between threads;
 * every list operation is one atomic step here.
 */
module Scheduler {

  type Action = nat

  /** `DelayedQueueItem`: an absolute due time and the action to run then. */
  datatype DelayedItem = DelayedItem(time: real, action: Action)

  /** One `QueueOnMainThread(action, delay)` call made by a running action. */
  datatype Post = Post(action: Action, delay: real)

  /** What running an action does: its posts, then whether it throws. */
  datatype Effect = Effect(posts: seq<Post>, throws: bool)

  /** The two shared lists `_actions` and `_delayed`. */
  datatype Queues = Queues(actions: seq<Action>, delayed: seq<DelayedItem>)

  /** The state after running a list of actions: the queues, the actions that
      ran (in order) and whether the last one threw out of the drain. */
  datatype Drain = Drain(q: Queues, ran: seq<Action>, aborted: bool)

  // ---------------------------------------------------------------------
  // Specification functions
  // ---------------------------------------------------------------------

  /** One QueueOnMainThread call: a zero delay goes to the immediate list,
      any other delay to the delayed list with due time `now + delay`. */
  function Enqueue(q: Queues, p: Post, now: real): Queues
  {
    if p.delay != 0.0 then q.(delayed := q.delayed + [DelayedItem(now + p.delay, p.action)])
    else q.(actions := q.actions + [p.action])
  }

  function EnqueueAll(q: Queues, posts: seq<Post>, now: real): Queues
    decreases |posts|
  {
    if posts == [] then q else EnqueueAll(Enqueue(q, posts[0], now), posts[1..], now)
  }

  /** Runs `list` front to back; an action that throws ends the run. */
  function RunList(q: Queues, list: seq<Action>, run: Action -> Effect, now: real): Drain
    decreases |list|
  {
    if list == [] then Drain(q, [], false)
    else
      var e := run(list[0]);
      var q' := EnqueueAll(q, e.posts, now);
      if e.throws then Drain(q', [list[0]], true)
      else
        var rest := RunList(q', list[1..], run, now);
        Drain(rest.q, [list[0]] + rest.ran, rest.aborted)
  }

  /** The delayed items that are due at `now` (`d.time <= now`), in order. */
  function Due(items: seq<DelayedItem>, now: real): seq<DelayedItem>
    decreases |items|
  {
    if items == [] then []
    else (if items[0].time <= now then [items[0]] else []) + Due(items[1..], now)
  }

  /** The delayed items that are not yet due, in order. */
  function Pending(items: seq<DelayedItem>, now: real): seq<DelayedItem>
    decreases |items|
  {
    if items == [] then []
    else (if items[0].time <= now then [] else [items[0]]) + Pending(items[1..], now)
  }

  function ActionsOf(items: seq<DelayedItem>): (r: seq<Action>)
    ensures |r| == |items|
    ensures forall i :: 0 <= i < |items| ==> r[i] == items[i].action
    decreases |items|
  {
    if items == [] then [] else [items[0].action] + ActionsOf(items[1..])
  }

  /** `List<T>.Remove(x)`: drops the first element equal to `x`, if any. */
  function RemoveFirst<T(==)>(s: seq<T>, x: T): (r: seq<T>)
    ensures x !in s ==> r == s
    ensures x in s ==> |r| == |s| - 1 && multiset(r) == multiset(s) - multiset{x}
    decreases |s|
  {
    if s == [] then []
    else
      assert s == [s[0]] + s[1..];
      if s[0] == x then s[1..] else [s[0]] + RemoveFirst(s[1..], x)
  }

  /** `foreach (var item in xs) s.Remove(item)`. */
  function RemoveEach<T(==)>(s: seq<T>, xs: seq<T>): seq<T>
    decreases |xs|
  {
    if xs == [] then s else RemoveEach(RemoveFirst(s, xs[0]), xs[1..])
  }

  /** One whole `Update`: phase 1 runs the snapshot of the immediate list
      against an emptied list; phase 2 (reached only when phase 1 did not
      throw) extracts the due delayed items and runs them. */
  function Tick(q: Queues, run: Action -> Effect, now: real): Drain
  {
    var d1 := RunList(Queues([], q.delayed), q.actions, run, now);
    if d1.aborted then d1
    else
      var due := Due(d1.q.delayed, now);
      var d2 := RunList(Queues(d1.q.actions, Pending(d1.q.delayed, now)), ActionsOf(due), run, now);
      Drain(d2.q, d1.ran + d2.ran, d2.aborted)
  }

  /** The immediate actions that the actions in `ran` enqueue while running. */
  function ImmediatePosts(posts: seq<Post>): seq<Action>
    decreases |posts|
  {
    if posts == [] then []
    else (if posts[0].delay == 0.0 then [posts[0].action] else []) + ImmediatePosts(posts[1..])
  }

  function PostsOf(ran: seq<Action>, run: Action -> Effect): seq<Post>
    decreases |ran|
  {
    if ran == [] then [] else run(ran[0]).posts + PostsOf(ran[1..], run)
  }

  /** Index of the first action of `list` that throws, or |list| if none does. */
  function FirstThrow(list: seq<Action>, run: Action -> Effect): (k: nat)
    ensures k <= |list|
    ensures forall i :: 0 <= i < k ==> !run(list[i]).throws
    ensures k < |list| ==> run(list[k]).throws
    decreases |list|
  {
    if list == [] then 0
    else if run(list[0]).throws then 0
    else 1 + FirstThrow(list[1..], run)
  }

  // ---------------------------------------------------------------------
  // Properties of a drain
  // ---------------------------------------------------------------------

  /** Actions run in submission order: exactly the prefix of `list` up to and
      including the first action that throws; the drain aborts iff one throws. */
  lemma {:induction false} RunListRunsPrefix(q: Queues, list: seq<Action>, run: Action -> Effect, now: real)
    ensures var d := RunList(q, list, run, now);
            var k := FirstThrow(list, run);
            && (d.aborted <==> k < |list|)
            && (d.aborted ==> d.ran == list[..k + 1])
            && (!d.aborted ==> d.ran == list)
    decreases |list|
  {
    if list != [] && !run(list[0]).throws {
      var q' := EnqueueAll(q, run(list[0]).posts, now);
      RunListRunsPrefix(q', list[1..], run, now);
      var rest := RunList(q', list[1..], run, now);
      assert RunList(q, list, run, now) == Drain(rest.q, [list[0]] + rest.ran, rest.aborted);
      var k' := FirstThrow(list[1..], run);
      assert FirstThrow(list, run) == k' + 1;
      if k' < |list[1..]| {
        assert [list[0]] + list[1..][..k' + 1] == list[..k' + 2];
      } else {
        assert [list[0]] + list[1..] == list;
      }
    } else if list != [] {
      assert list[..1] == [list[0]];
    }
  }

  lemma {:induction false} EnqueueAllShape(q: Queues, posts: seq<Post>, now: real)
    ensures EnqueueAll(q, posts, now).actions == q.actions + ImmediatePosts(posts)
    ensures |EnqueueAll(q, posts, now).delayed| >= |q.delayed|
    ensures EnqueueAll(q, posts, now).delayed[..|q.delayed|] == q.delayed
    decreases |posts|
  {
    if posts != [] {
      var q' := Enqueue(q, posts[0], now);
      EnqueueAllShape(q', posts[1..], now);
      assert q'.delayed[..|q.delayed|] == q.delayed;
    }
  }

  lemma {:induction false} ImmediatePostsAppend(a: seq<Post>, b: seq<Post>)
    ensures ImmediatePosts(a + b) == ImmediatePosts(a) + ImmediatePosts(b)
    decreases |a|
  {
    if a != [] {
      assert (a + b)[0] == a[0] && (a + b)[1..] == a[1..] + b;
      ImmediatePostsAppend(a[1..], b);
    } else {
      assert a + b == b;
    }
  }

  /** Actions enqueued while a list runs are appended to the immediate list
      and never run in that same list: the immediate list afterwards is the
      old one followed by exactly what the actions that ran enqueued. */
  lemma {:induction false} RunListDefersNewActions(q: Queues, list: seq<Action>, run: Action -> Effect, now: real)
    ensures var d := RunList(q, list, run, now);
            d.q.actions == q.actions + ImmediatePosts(PostsOf(d.ran, run))
    decreases |list|
  {
    if list != [] {
      var e := run(list[0]);
      var q' := EnqueueAll(q, e.posts, now);
      EnqueueAllShape(q, e.posts, now);
      var d := RunList(q, list, run, now);
      if e.throws {
        assert d.ran == [list[0]];
        assert PostsOf(d.ran, run) == e.posts + PostsOf([], run);
        assert e.posts + [] == e.posts;
      } else {
        var rest := RunList(q', list[1..], run, now);
        RunListDefersNewActions(q', list[1..], run, now);
        assert d.ran == [list[0]] + rest.ran;
        assert ([list[0]] + rest.ran)[1..] == rest.ran;
        assert PostsOf(d.ran, run) == e.posts + PostsOf(rest.ran, run);
        ImmediatePostsAppend(e.posts, PostsOf(rest.ran, run));
      }
    }
  }

  /** Phase 1 of a tick that does not throw runs exactly the old immediate
      list, in submission order, and leaves behind only what those actions
      enqueued: nothing enqueued during the drain runs before the next one. */
  lemma TickPhase1(q: Queues, run: Action -> Effect, now: real)
    requires FirstThrow(q.actions, run) == |q.actions|
    ensures var d1 := RunList(Queues([], q.delayed), q.actions, run, now);
            && !d1.aborted
            && d1.ran == q.actions
            && d1.q.actions == ImmediatePosts(PostsOf(q.actions, run))
  {
    RunListRunsPrefix(Queues([], q.delayed), q.actions, run, now);
    RunListDefersNewActions(Queues([], q.delayed), q.actions, run, now);
  }

  /** Due and Pending split the delayed list by `time <= now`, both keep
      their items' relative order, and together they hold every item. */
  lemma {:induction false} DuePendingPartition(items: seq<DelayedItem>, now: real)
    ensures forall d :: d in Due(items, now) <==> d in items && d.time <= now
    ensures forall d :: d in Pending(items, now) <==> d in items && d.time > now
    ensures multiset(Due(items, now)) + multiset(Pending(items, now)) == multiset(items)
  {
    DueMembers(items, now);
    PendingMembers(items, now);
    DuePendingMultiset(items, now);
  }

  lemma {:induction false} DueMembers(items: seq<DelayedItem>, now: real)
    ensures forall d :: d in Due(items, now) <==> d in items && d.time <= now
    decreases |items|
  {
    if items != [] {
      DueMembers(items[1..], now);
      assert items == [items[0]] + items[1..];
    }
  }

  lemma {:induction false} PendingMembers(items: seq<DelayedItem>, now: real)
    ensures forall d :: d in Pending(items, now) <==> d in items && d.time > now
    decreases |items|
  {
    if items != [] {
      PendingMembers(items[1..], now);
      assert items == [items[0]] + items[1..];
    }
  }

  lemma {:induction false} DuePendingMultiset(items: seq<DelayedItem>, now: real)
    ensures multiset(Due(items, now)) + multiset(Pending(items, now)) == multiset(items)
    decreases |items|
  {
    if items != [] {
      DuePendingMultiset(items[1..], now);
      assert items == [items[0]] + items[1..];
    }
  }

  lemma {:induction false} RemoveFirstSkips<T>(d: T, rest: seq<T>, x: T)
    requires d != x
    ensures RemoveFirst([d] + rest, x) == [d] + RemoveFirst(rest, x)
  {
    assert ([d] + rest)[1..] == rest;
  }

  lemma {:induction false} RemoveEachSkips<T>(d: T, rest: seq<T>, xs: seq<T>)
    requires d !in xs
    ensures RemoveEach([d] + rest, xs) == [d] + RemoveEach(rest, xs)
    decreases |xs|
  {
    if xs != [] {
      RemoveFirstSkips(d, rest, xs[0]);
      RemoveEachSkips(d, RemoveFirst(rest, xs[0]), xs[1..]);
    }
  }

  /** Removing each due item with `List.Remove` (first occurrence) leaves
      exactly the pending items, in their original order. */
  lemma {:induction false} RemoveDueLeavesPending(items: seq<DelayedItem>, now: real)
    ensures RemoveEach(items, Due(items, now)) == Pending(items, now)
    decreases |items|
  {
    if items != [] {
      var d := items[0];
      var rest := items[1..];
      assert items == [d] + rest;
      RemoveDueLeavesPending(rest, now);
      if d.time <= now {
        assert Due(items, now) == [d] + Due(rest, now);
        assert ([d] + Due(rest, now))[1..] == Due(rest, now);
      } else {
        assert Due(items, now) == Due(rest, now);
        DuePendingPartition(rest, now);
        assert d !in Due(rest, now);
        RemoveEachSkips(d, rest, Due(rest, now));
      }
    }
  }

  /** An item whose due time equals the current time is extracted (the
      comparison is `<=`), and one due later is kept. */
  lemma DueBoundary(d: DelayedItem, now: real)
    ensures d.time == now ==> Due([d], now) == [d] && Pending([d], now) == []
    ensures d.time > now ==> Due([d], now) == [] && Pending([d], now) == [d]
  {
  }

  // ---------------------------------------------------------------------
  // The scheduler object
  // ---------------------------------------------------------------------

  class Loom {
    var actions: seq<Action>
    var delayed: seq<DelayedItem>
    var currentActions: seq<Action>
    var currentDelayed: seq<DelayedItem>

    function State(): Queues
      reads this
    {
      Queues(actions, delayed)
    }

    constructor ()
      ensures actions == [] && delayed == [] && currentActions == [] && currentDelayed == []
    {
      actions, delayed, currentActions, currentDelayed := [], [], [], [];
    }

    /** The one-argument overload: same as a delay of 0. */
    method QueueOnMainThread(action: Action)
      modifies this
      ensures actions == old(actions) + [action] && delayed == old(delayed)
      ensures currentActions == old(currentActions) && currentDelayed == old(currentDelayed)
    {
      QueueOnMainThreadAfter(action, 0.0, 0.0);
    }

    /** `QueueOnMainThread(action, time)` called at frame time `now`. */
    method QueueOnMainThreadAfter(action: Action, time: real, now: real)
      modifies this
      ensures time == 0.0 ==> actions == old(actions) + [action] && delayed == old(delayed)
      ensures time != 0.0 ==> delayed == old(delayed) + [DelayedItem(now + time, action)] && actions == old(actions)
      ensures State() == Enqueue(old(State()), Post(action, time), now)
      ensures currentActions == old(currentActions) && currentDelayed == old(currentDelayed)
    {
      if time != 0.0 {
        delayed := delayed + [DelayedItem(now + time, action)];
      } else {
        actions := actions + [action];
      }
    }

    /** The QueueOnMainThread calls a running action makes. */
    method Submit(posts: seq<Post>, now: real)
      modifies this
      ensures State() == EnqueueAll(old(State()), posts, now)
      ensures currentActions == old(currentActions) && currentDelayed == old(currentDelayed)
    {
      var k := 0;
      while k < |posts|
        invariant 0 <= k <= |posts|
        invariant EnqueueAll(State(), posts[k..], now) == EnqueueAll(old(State()), posts, now)
        invariant currentActions == old(currentActions) && currentDelayed == old(currentDelayed)
      {
        assert posts[k..][1..] == posts[k + 1..];
        QueueOnMainThreadAfter(posts[k].action, posts[k].delay, now);
        k := k + 1;
      }
    }

    /** Runs one action of a drain; returns whether it threw. */
    method Invoke(a: Action, run: Action -> Effect, now: real) returns (threw: bool)
      modifies this
      ensures State() == EnqueueAll(old(State()), run(a).posts, now)
      ensures threw == run(a).throws
      ensures currentActions == old(currentActions) && currentDelayed == old(currentDelayed)
    {
      var e := run(a);
      Submit(e.posts, now);
      threw := e.throws;
    }

    /** `RunAsync`'s body on a worker thread: an exception is caught and
        logged (`logged`), never propagated; what the action enqueued stays. */
    method RunAction(a: Action, run: Action -> Effect, now: real) returns (logged: bool)
      modifies this
      ensures State() == EnqueueAll(old(State()), run(a).posts, now)
      ensures logged == run(a).throws
      ensures currentActions == old(currentActions) && currentDelayed == old(currentDelayed)
    {
      logged := Invoke(a, run, now);
    }

    /** Runs `list` in order until one action throws. */
    method RunAll(list: seq<Action>, run: Action -> Effect, now: real) returns (ran: seq<Action>, aborted: bool)
      modifies this
      ensures Drain(State(), ran, aborted) == RunList(old(State()), list, run, now)
      ensures currentActions == old(currentActions) && currentDelayed == old(currentDelayed)
    {
      ran, aborted := [], false;
      var i := 0;
      while i < |list|
        invariant 0 <= i <= |list|
        invariant var r := RunList(State(), list[i..], run, now);
                  Drain(r.q, ran + r.ran, r.aborted) == RunList(old(State()), list, run, now)
        invariant currentActions == old(currentActions) && currentDelayed == old(currentDelayed)
      {
        assert list[i..][1..] == list[i + 1..];
        var threw := Invoke(list[i], run, now);
        ran := ran + [list[i]];
        if threw {
          aborted := true;
          return;
        }
        i := i + 1;
      }
    }

    /** One frame's drain. An exception out of an action leaves `Update`
        (there is no guard here), so the rest of that drain does not run. */
    method Update(now: real, run: Action -> Effect) returns (ran: seq<Action>, aborted: bool)
      modifies this
      ensures Drain(State(), ran, aborted) == Tick(old(State()), run, now)
      ensures currentActions == old(actions)
      ensures var d1 := RunList(Queues([], old(delayed)), old(actions), run, now);
              if d1.aborted then currentDelayed == old(currentDelayed)
              else currentDelayed == Due(d1.q.delayed, now)
    {
      // phase 1: snapshot and clear the immediate list, then run the snapshot
      currentActions := actions;
      actions := [];
      ghost var q1 := State();
      ran, aborted := RunAll(currentActions, run, now);
      if aborted {
        return;
      }
      // phase 2: extract the due delayed items, then run them
      ghost var d1 := State();
      currentDelayed := Due(delayed, now);
      var k := 0;
      while k < |currentDelayed|
        invariant 0 <= k <= |currentDelayed|
        invariant actions == d1.actions && currentDelayed == Due(d1.delayed, now)
        invariant currentActions == old(actions)
        invariant RemoveEach(delayed, currentDelayed[k..]) == RemoveEach(d1.delayed, currentDelayed)
      {
        assert currentDelayed[k..][1..] == currentDelayed[k + 1..];
        delayed := RemoveFirst(delayed, currentDelayed[k]);
        k := k + 1;
      }
      RemoveDueLeavesPending(d1.delayed, now);
      var ran2;
      ran2, aborted := RunAll(ActionsOf(currentDelayed), run, now);
      ran := ran + ran2;
    }
  }

  /** The scheduler's static part: `initialized` and `_current`. */
  class LoomRuntime {
    var initialized: bool
    var current: Loom?

    constructor ()
      ensures !initialized && current == null
    {
      initialized, current := false, null;
    }

    /** `Initialize`: takes effect only on the first call made while the
        application is playing; every other call changes nothing. */
    method Initialize(isPlaying: bool)
      modifies this
      ensures old(initialized) ==> initialized && current == old(current)
      ensures !old(initialized) && !isPlaying ==> !initialized && current == old(current)
      ensures !old(initialized) && isPlaying ==>
                initialized && current != null && fresh(current) && current.State() == Queues([], [])
      ensures initialized == InitializedAfter(old(initialized), [isPlaying])
    {
      if !initialized {
        if !isPlaying {
          return;
        }
        initialized := true;
        current := new Loom();
      }
    }

    /** The static `QueueOnMainThread(action, time)` at frame time `now`. It
        goes through `Current`, which is null until a successful `Initialize`:
        a post made before then throws (`threw`) and changes nothing. */
    method QueueOnMainThread(action: Action, time: real, now: real) returns (threw: bool)
      modifies current
      ensures threw <==> current == null
      ensures current != null ==>
                current.State() == Enqueue(old(current.State()), Post(action, time), now) &&
                current.currentActions == old(current.currentActions) &&
                current.currentDelayed == old(current.currentDelayed)
    {
      if current == null {
        return true;
      }
      threw := false;
      current.QueueOnMainThreadAfter(action, time, now);
    }
  }

  /** `initialized` after a series of Initialize calls, given `isPlaying` at each. */
  function InitializedAfter(initialized: bool, calls: seq<bool>): bool
    decreases |calls|
  {
    if calls == [] then initialized
    else InitializedAfter(initialized || calls[0], calls[1..])
  }

  /** How many calls of a series bind the scheduler (create `_current`). */
  function Bindings(initialized: bool, calls: seq<bool>): nat
    decreases |calls|
  {
    if calls == [] then 0
    else (if !initialized && calls[0] then 1 else 0) + Bindings(initialized || calls[0], calls[1..])
  }

  /** Initialize binds at most once over any series of calls, exactly once
      when some call is made while playing, and never after it is bound. */
  lemma {:induction false} InitializeBindsOnce(initialized: bool, calls: seq<bool>)
    ensures initialized ==> Bindings(initialized, calls) == 0
    ensures !initialized ==> (Bindings(initialized, calls) == 1 <==> true in calls)
    ensures Bindings(initialized, calls) <= 1
    ensures InitializedAfter(initialized, calls) <==> initialized || true in calls
    decreases |calls|
  {
    if calls != [] {
      InitializeBindsOnce(initialized || calls[0], calls[1..]);
      assert calls == [calls[0]] + calls[1..];
    }
  }
}
