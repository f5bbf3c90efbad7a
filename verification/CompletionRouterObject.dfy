/** The router as an object: its maps changed in place. */
module CompletionRouterObject {
  import opened Budget
  import R = CompletionRouter

  class CompletionRouter {
    var pendingResolve: map<R.TaskId, nat>
    var pendingReject: map<R.TaskId, nat>
    var timers: map<R.TaskId, nat>
    var subscribed: set<R.Queue>
    /** The world around the router: listeners on signals, aborted signals, promises handed out. */
    var listeners: seq<R.Listener>
    var aborted: set<nat>
    var promises: map<nat, R.Promise>

    ghost function State(): R.Router
      reads this
    {
      R.Router.Router(pendingResolve, pendingReject, timers, subscribed, listeners, aborted, promises)
    }

    constructor ()
      ensures State() == R.NEW_ROUTER
    {
      pendingResolve, pendingReject, timers, subscribed := map[], map[], map[], {};
      listeners, aborted, promises := [], {}, map[];
    }

    method Settle(w: nat, outcome: R.Outcome)
      modifies this`promises
      ensures State() == R.Settle(old(State()), w, outcome)
    {
      if w in promises && promises[w].result.None? {
        promises := promises[w := promises[w].(result := Some(outcome))];
      }
    }

    method ClearPending(task: R.TaskId)
      modifies this`pendingResolve, this`pendingReject, this`timers
      ensures State() == R.ClearPending(old(State()), task)
    {
      pendingResolve := pendingResolve - {task};
      pendingReject := pendingReject - {task};
      timers := timers - {task};
    }

    method OnCompleted(task: R.TaskId)
      modifies this
      ensures State() == R.Next(old(State()), R.Completes(task))
    {
      if task in pendingResolve {
        var w := pendingResolve[task];
        ClearPending(task);
        Settle(w, R.Resolved);
      }
    }

    method OnFailed(task: R.TaskId)
      modifies this
      ensures State() == R.Next(old(State()), R.Fails(task))
    {
      if task in pendingReject {
        var w := pendingReject[task];
        ClearPending(task);
        Settle(w, R.AgentFailed);
      }
    }

    /** Walk a copy of the rejecters; each waiter is cleared, then rejected. */
    method RejectAllPending()
      requires R.Inv(State())
      modifies this
      ensures State() == R.RejectAllPending(old(State()))
    {
      ghost var before := State();
      var copy, open := pendingReject, pendingReject.Keys;
      ghost var gone: set<R.TaskId> := {};
      while open != {}
        invariant copy == before.rejecters && gone !! open && gone + open == copy.Keys
        invariant subscribed == before.subscribed && listeners == before.listeners && aborted == before.aborted
        invariant pendingResolve == before.resolvers - gone && pendingReject == before.rejecters - gone
        invariant timers == before.timers - gone
        invariant promises.Keys == before.promises.Keys
        invariant forall w <- before.promises ::
                    promises[w] == if Rejects(copy, gone, before.promises[w].task, w)
                                   then before.promises[w].(result := Some(R.SubscribeFailed)) else before.promises[w]
        decreases open
      {
        var task :| task in open;
        assert before.promises[copy[task]] == R.Promise.Promise(task, true, None);
        ClearPending(task);
        Settle(copy[task], R.SubscribeFailed);
        Minus(before.resolvers, gone, task);
        Minus(before.rejecters, gone, task);
        open, gone := open - {task}, gone + {task};
      }
      assert gone == copy.Keys;
      RejectedAre(before);
      assert promises == R.RejectAllPending(before).promises;
    }

    lemma Minus(m: map<R.TaskId, nat>, gone: set<R.TaskId>, task: R.TaskId)
      ensures m - gone - {task} == m - (gone + {task})
    {
    }

    /** The entry of the copy has been visited and is this waiter's. */
    ghost predicate Rejects(copy: map<R.TaskId, nat>, gone: set<R.TaskId>, task: R.TaskId, w: nat) {
      task in copy && task in gone && copy[task] == w
    }

    lemma RejectedAre(r: R.Router)
      requires R.Inv(r)
      ensures forall w <- r.promises ::
                w in r.rejecters.Values <==> Rejects(r.rejecters, r.rejecters.Keys, r.promises[w].task, w)
      ensures forall w <- r.promises :: w in r.rejecters.Values ==> r.promises[w].result.None?
    {
      forall w | w in r.promises && w in r.rejecters.Values
        ensures Rejects(r.rejecters, r.rejecters.Keys, r.promises[w].task, w) && r.promises[w].result.None?
      {
        var t :| t in r.rejecters && r.rejecters[t] == w;
        assert r.resolvers[t] == w;
      }
    }

    /** A subscribe call that throws at once, or is taken as subscribed until it rejects. */
    method Subscribe(q: R.Queue, throwing: set<R.Queue>)
      requires R.Inv(State())
      modifies this
      ensures State() == R.Subscribe(old(State()), q, throwing) && R.Inv(State())
    {
      ghost var before := State();
      R.SubscribeInv(before, q, throwing);
      if q !in subscribed {
        subscribed := subscribed + {q};
        if q in throwing {
          OnSubscribeRejected(q);
          assert before.subscribed + {q} - {q} == before.subscribed - {q};
        }
      }
    }

    method OnSubscribeRejected(q: R.Queue)
      requires R.Inv(State())
      modifies this
      ensures State() == R.SubscribeFailure(old(State()), q)
    {
      subscribed := subscribed - {q};
      RejectAllPending();
    }

    /** wait: refuse a duplicate, then an aborted signal; else register everything, then subscribe. */
    method Wait(w: nat, task: R.TaskId, signal: Option<nat>, throwing: set<R.Queue>)
      requires R.Inv(State()) && w !in promises
      modifies this
      ensures State() == R.Next(old(State()), R.Wait(w, task, signal, throwing)) && R.Inv(State())
    {
      ghost var before := State();
      R.BeginWaitInv(before, w, task, signal, throwing);
      if task in pendingResolve {
        promises := promises[w := R.Promise.Promise(task, false, Some(R.Duplicate))];
        return;
      }
      if signal.Some? {
        if signal.value in aborted {
          promises := promises[w := R.Promise.Promise(task, false, Some(R.Aborted))];
          return;
        }
        listeners := listeners + [R.Listener.Listener(signal.value, task, w)];
      }
      promises := promises[w := R.Promise.Promise(task, true, None)];
      pendingResolve := pendingResolve[task := w];
      pendingReject := pendingReject[task := w];
      timers := timers[task := w];
      assert State() == R.Register(before, w, task, signal);
      R.RegisterInv(before, w, task, signal);
      hide R.Inv, R.Register, R.Subscribe;
      Subscribe(R.CompletedQueue, throwing);
      Subscribe(R.FailedQueue, throwing);
    }

    method OnTimeout(task: R.TaskId)
      requires task in timers
      modifies this
      ensures State() == R.Next(old(State()), R.TimesOut(task))
    {
      if task in pendingResolve {
        var w := timers[task];
        ClearPending(task);
        Settle(w, R.TimedOut);
      }
    }

    /** An abort: the signal's listeners run in the order they were added, looking the task id up afresh. */
    method OnAbort(signal: nat)
      requires signal !in aborted
      modifies this
      ensures State() == R.Next(old(State()), R.Aborts(signal))
    {
      ghost var before := State();
      var left: seq<R.Listener> := [];
      for i := 0 to |listeners|
        invariant listeners == before.listeners && aborted == before.aborted
        invariant State() == R.FireAll(before, listeners[..i], signal)
        invariant left == R.Others(listeners[..i], signal)
      {
        var l := listeners[i];
        assert listeners[..i + 1][..i] == listeners[..i];
        if l.signal != signal {
          left := left + [l];
        } else if l.task in pendingResolve {
          ClearPending(l.task);
          Settle(l.waiter, R.Aborted);
        }
      }
      assert listeners[..|listeners|] == listeners;
      aborted, listeners := aborted + {signal}, left;
    }
  }
}
