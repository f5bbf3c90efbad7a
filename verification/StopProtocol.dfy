/**
 * The emergency STOP ALL protocol (control-channel.ts, agent-node.ts): issuers save a moment and
 * then publish it; nodes subscribe, read the saved key, and only then start to take tasks.  The
 * channel may lose (while a node is disconnected), repeat and reorder messages.
 */
module StopProtocol {
  import opened Budget
  import opened Actor
  import opened ActorTheorems

  /**
   * The saved key: nothing, a value no moment can be read from, a value with a moment that a node
   * refuses (its signature or its fields do not verify), or a command a node accepts.
   */
  datatype Saved = Absent | Garbage | Rejected(moment: int) | Holds(moment: int)

  /** SAVE_IF_LATER looks at the moment only, so a value that nodes refuse can win. */
  function SaveIfLater(saved: Saved, moment: int): Saved {
    if (saved.Holds? || saved.Rejected?) && saved.moment >= moment then saved else Holds(moment)
  }

  predicate Covers(saved: Saved, moment: int) {
    saved.Holds? && moment <= saved.moment
  }

  /** What onStop does to the node's cutoff with a value read from the key. */
  function Obey(c: Cutoff, saved: Saved): Cutoff {
    if saved.Holds? then Later(c, saved.moment) else c
  }

  function Moment(saved: Saved): set<int> {
    if saved.Holds? then {saved.moment} else {}
  }

  datatype Phase =
    | Subscribed                   // listening, the saved key not read yet
    | Read(saved: Saved, at: nat)  // the key has been read, and under which subscription; not delivered yet
    | Attached                     // the saved stop is applied, the actor not started yet
    | Started
    | Failed                       // the saved key could not be read: the node never takes a task

  /** A read of the key by a catch-up, with the subscription it was made under. */
  datatype CatchUp = CatchUp(saved: Saved, epoch: nat)

  /**
   * `inbox` are the messages on their way, `heard` the moments obeyed so far, `base` the moments
   * saved when the node last (re)subscribed, `caughtUp` whether a read made since then was obeyed.
   */
  datatype Node = Node(
    phase: Phase, connected: bool, epoch: nat, inbox: set<int>, asked: set<CatchUp>, caughtUp: bool,
    base: set<int>, cutoff: Cutoff, heard: set<int>)

  /** `issued` are all moments ever handed to SAVE_IF_LATER, `published` those sent on the channel. */
  datatype World = World(key: Saved, issued: set<int>, published: set<int>, nodes: map<nat, Node>)

  datatype Event =
    | Save(moment: int)
    | Publish(moment: int)
    | Subscribe(n: nat)
    | StartRead(n: nat)
    | StartDeliver(n: nat)
    | StartFails(n: nat)
    | StartActor(n: nat)
    | Receive(n: nat, moment: int)
    | Disconnect(n: nat)
    | Resubscribe(n: nat)
    | CatchUpRead(n: nat)
    | CatchUpDeliver(n: nat, read: CatchUp)
    | RunTask(n: nat, sent: Timestamp)

  predicate Enabled(w: World, e: Event) {
    match e
    case Save(_) => true
    case Publish(moment) => moment in w.issued
    case Subscribe(n) => n !in w.nodes
    case StartRead(n) => n in w.nodes && w.nodes[n].phase.Subscribed?
    case StartDeliver(n) => n in w.nodes && w.nodes[n].phase.Read?
    case StartFails(n) => n in w.nodes && w.nodes[n].phase.Subscribed?
    case StartActor(n) => n in w.nodes && w.nodes[n].phase.Attached?
    case Receive(n, moment) => n in w.nodes && w.nodes[n].connected && moment in w.published
    case Disconnect(n) => n in w.nodes && w.nodes[n].connected
    case Resubscribe(n) => n in w.nodes && !w.nodes[n].connected
    case CatchUpRead(n) => n in w.nodes
    case CatchUpDeliver(n, read) => n in w.nodes && read in w.nodes[n].asked
    case RunTask(n, sent) =>
      n in w.nodes && w.nodes[n].phase.Started? && !SentBeforeStop(sent, w.nodes[n].cutoff)
  }

  /** One node's own step. */
  function NodeStep(w: World, x: Node, e: Event): Node {
    match e
    case StartRead(_) => x.(phase := Read(w.key, x.epoch))
    case StartDeliver(_) =>
      if x.phase.Read? then
        x.(phase := Attached, cutoff := Obey(x.cutoff, x.phase.saved), heard := x.heard + Moment(x.phase.saved),
           caughtUp := x.caughtUp || x.phase.at == x.epoch)
      else x
    case StartFails(_) => x.(phase := Failed)
    case StartActor(_) => x.(phase := Started)
    case Receive(_, moment) =>
      x.(cutoff := Later(x.cutoff, moment), heard := x.heard + {moment}, inbox := x.inbox - {moment})
    case Disconnect(_) => x.(connected := false, inbox := {})
    case Resubscribe(_) => x.(connected := true, epoch := x.epoch + 1, caughtUp := false, base := w.issued)
    case CatchUpRead(_) => x.(asked := x.asked + {CatchUp(w.key, x.epoch)})
    case CatchUpDeliver(_, read) =>
      x.(asked := x.asked - {read}, cutoff := Obey(x.cutoff, read.saved), heard := x.heard + Moment(read.saved),
         caughtUp := x.caughtUp || read.epoch == x.epoch)
    case _ => x
  }

  function Next(w: World, e: Event): World
    requires Enabled(w, e)
  {
    match e
    case Save(moment) => w.(key := SaveIfLater(w.key, moment), issued := w.issued + {moment})
    case Publish(moment) =>
      w.(published := w.published + {moment},
         nodes := map n | n in w.nodes ::
                    if w.nodes[n].connected then w.nodes[n].(inbox := w.nodes[n].inbox + {moment}) else w.nodes[n])
    case Subscribe(n) =>
      w.(nodes := w.nodes[n := Node(Subscribed, true, 0, {}, {}, false, w.issued, Never, {})])
    case _ => w.(nodes := w.nodes[e.n := NodeStep(w, w.nodes[e.n], e)])
  }

  ghost predicate Init(w: World) {
    w.nodes == map[] && w.published == {} && w.issued == Moment(w.key)
  }

  ghost predicate IsRun(ws: seq<World>, es: seq<Event>) {
    && |ws| == |es| + 1 && Init(ws[0])
    && forall k :: 0 <= k < |es| ==> Enabled(ws[k], es[k]) && ws[k + 1] == Next(ws[k], es[k])
  }

  // ----- The saved key -----

  /** A value that nodes refuse was there first, and no later moment has replaced it. */
  ghost predicate Blocked(first: Saved, issued: set<int>) {
    first.Rejected? && forall m <- issued :: m <= first.moment
  }

  ghost predicate KeyInv(first: Saved, w: World) {
    && (Blocked(first, w.issued) ==> w.key == first)
    && (!Blocked(first, w.issued) && w.issued != {} ==> w.key.Holds? && w.key.moment in w.issued)
    && (!Blocked(first, w.issued) ==> forall m <- w.issued :: Covers(w.key, m))
    && (!Blocked(first, w.issued) && w.issued == {} ==> !w.key.Holds? && !w.key.Rejected?)
    && w.published <= w.issued
  }

  lemma KeyStep(first: Saved, w: World, e: Event)
    requires KeyInv(first, w) && Enabled(w, e)
    ensures KeyInv(first, Next(w, e))
  {
    if e.Save? && first.Rejected? && !Blocked(first, w.issued) {
      var m :| m in w.issued && m > first.moment;
      assert m in Next(w, e).issued;
    }
  }

  lemma {:induction false} KeyRun(ws: seq<World>, es: seq<Event>, k: nat)
    requires IsRun(ws, es) && k < |ws|
    ensures KeyInv(ws[0].key, ws[k])
  {
    if k > 0 {
      KeyRun(ws, es, k - 1);
      KeyStep(ws[0].key, ws[k - 1], es[k - 1]);
    }
  }

  /**
   * The saved key always holds the maximum issued moment, whatever the issuers' interleaving,
   * exactly unless a value that nodes refuse sits there with a moment no stop has exceeded.
   */
  lemma KeyHoldsMaximum(ws: seq<World>, es: seq<Event>, k: nat)
    requires IsRun(ws, es) && k < |ws| && ws[k].issued != {}
    ensures (&& ws[k].key.Holds? && ws[k].key.moment in ws[k].issued
             && forall m <- ws[k].issued :: m <= ws[k].key.moment) <==>
            !(ws[0].key.Rejected? && forall m <- ws[k].issued :: m <= ws[0].key.moment)
  {
    KeyRun(ws, es, k);
  }

  // ----- A node that starts after a stop was saved -----

  /** Node n was told of every moment in the set, or holds a value that will tell it before it starts. */
  ghost predicate Told(w: World, n: nat, moments: set<int>) {
    && n in w.nodes
    && var x := w.nodes[n];
       match x.phase
       case Subscribed => false
       case Read(saved, _) => forall m <- moments :: Covers(saved, m)
       case Attached => forall m <- moments :: NotBefore(x.cutoff, m)
       case Started => forall m <- moments :: NotBefore(x.cutoff, m)
       case Failed => true
  }

  lemma ToldStep(w: World, e: Event, n: nat, moments: set<int>)
    requires Told(w, n, moments) && Enabled(w, e)
    ensures Told(Next(w, e), n, moments)
  {
  }

  lemma {:induction false} ToldRun(ws: seq<World>, es: seq<Event>, i: nat, j: nat, n: nat)
    requires IsRun(ws, es) && i < j < |ws| && es[i] == StartRead(n) && !Blocked(ws[0].key, ws[i].issued)
    ensures Told(ws[j], n, ws[i].issued)
    decreases j
  {
    assert Enabled(ws[j - 1], es[j - 1]) && ws[j] == Next(ws[j - 1], es[j - 1]);
    if i + 1 == j {
      KeyRun(ws, es, i);
    } else {
      ToldRun(ws, es, i, j - 1, n);
      ToldStep(ws[j - 1], es[j - 1], n, ws[i].issued);
    }
  }

  /**
   * No lost stop: a node never runs a task sent at or before a stop that was saved before the node
   * read the key on start, whatever happened to the messages on the channel.
   */
  lemma NoLostStop(ws: seq<World>, es: seq<Event>, i: nat, j: nat, n: nat, sent: Timestamp, moment: int)
    requires IsRun(ws, es) && i < j < |es| && es[i] == StartRead(n) && es[j] == RunTask(n, sent)
    requires moment in ws[i].issued && !Blocked(ws[0].key, ws[i].issued)
    ensures !SentBeforeStop(sent, Since(moment))
  {
    ToldRun(ws, es, i, j, n);
    assert Enabled(ws[j], es[j]);
  }

  /** Tasks are run only after the key was read: the read is what NoLostStop needs, and it is there. */
  lemma {:induction false} ReadBeforeRun(ws: seq<World>, es: seq<Event>, j: nat, n: nat)
    requires IsRun(ws, es) && j < |ws| && n in ws[j].nodes
    requires !ws[j].nodes[n].phase.Subscribed? && !ws[j].nodes[n].phase.Failed?
    ensures exists i :: 0 <= i < j && es[i] == StartRead(n)
  {
    assert j > 0;
    assert Enabled(ws[j - 1], es[j - 1]) && ws[j] == Next(ws[j - 1], es[j - 1]);
    if es[j - 1] != StartRead(n) {
      ReadBeforeRun(ws, es, j - 1, n);
    }
  }

  // ----- What a node has heard -----

  ghost predicate NodeInv(first: Saved, w: World, x: Node) {
    && IsMaximum(x.cutoff, x.heard)
    && x.heard <= w.issued && x.inbox <= w.published && x.base <= w.issued
    && (x.phase.Read? ==> Moment(x.phase.saved) <= w.issued && x.phase.at <= x.epoch)
    && (!Blocked(first, x.base) && x.phase.Read? && x.phase.at == x.epoch ==>
          forall m <- x.base :: Covers(x.phase.saved, m))
    && (forall r <- x.asked :: Moment(r.saved) <= w.issued && r.epoch <= x.epoch)
    && (!Blocked(first, x.base) ==> forall r <- x.asked, m <- x.base :: r.epoch == x.epoch ==> Covers(r.saved, m))
    && (!Blocked(first, x.base) && x.caughtUp ==> forall m <- x.base :: NotBefore(x.cutoff, m))
    && (x.connected ==> forall m <- w.published :: m in x.inbox || m in x.base || NotBefore(x.cutoff, m))
  }

  ghost predicate Inv(first: Saved, w: World) {
    KeyInv(first, w) && forall n <- w.nodes :: NodeInv(first, w, w.nodes[n])
  }

  lemma ObeyIsMaximum(c: Cutoff, heard: set<int>, saved: Saved)
    requires IsMaximum(c, heard)
    ensures IsMaximum(Obey(c, saved), heard + Moment(saved))
  {
    if saved.Holds? {
      LaterIsMaximum(c, heard, saved.moment);
    } else {
      assert heard + Moment(saved) == heard;
    }
  }

  /** A value read from the key now tells every moment saved when the node last subscribed. */
  lemma ReadCovers(first: Saved, w: World, base: set<int>)
    requires KeyInv(first, w) && base <= w.issued
    ensures Moment(w.key) <= w.issued
    ensures !Blocked(first, base) ==> forall m <- base :: Covers(w.key, m)
  {
    if !Blocked(first, base) && base != {} {
      assert !Blocked(first, w.issued);
    }
  }

  lemma NodeStepInv(first: Saved, w: World, x: Node, e: Event)
    requires KeyInv(first, w) && NodeInv(first, w, x)
    requires e.Receive? ==> e.moment in w.published
    requires e.CatchUpDeliver? ==> e.read in x.asked
    ensures NodeInv(first, w, NodeStep(w, x, e))
  {
    hide IsMaximum, SaveIfLater;
    match e
    case StartDeliver(_) => if x.phase.Read? { ObeyIsMaximum(x.cutoff, x.heard, x.phase.saved); }
    case Receive(_, m) => LaterIsMaximum(x.cutoff, x.heard, m);
    case CatchUpDeliver(_, read) => ObeyIsMaximum(x.cutoff, x.heard, read.saved);
    case StartRead(_) => ReadCovers(first, w, x.base); hide Covers, Blocked;
    case CatchUpRead(_) => ReadCovers(first, w, x.base); hide Covers, Blocked;
    case Resubscribe(_) => hide Covers, Blocked;
    case _ =>
  }

  lemma SaveInv(first: Saved, w: World, moment: int, x: Node)
    requires NodeInv(first, w, x)
    ensures NodeInv(first, Next(w, Save(moment)), x)
  {
    hide IsMaximum, Blocked, Covers, SaveIfLater;
  }

  lemma PublishInv(first: Saved, w: World, moment: int, x: Node)
    requires NodeInv(first, w, x) && moment in w.issued
    ensures NodeInv(first, Next(w, Publish(moment)), if x.connected then x.(inbox := x.inbox + {moment}) else x)
  {
    hide IsMaximum, Blocked, Covers;
  }

  lemma SubscribeInv(first: Saved, w: World)
    requires KeyInv(first, w)
    ensures NodeInv(first, w, Node(Subscribed, true, 0, {}, {}, false, w.issued, Never, {}))
  {
  }

  /** What is said of a node depends on the issued and the published moments only. */
  lemma NodeInvStays(first: Saved, w: World, w': World, x: Node)
    requires NodeInv(first, w, x) && w'.issued == w.issued && w'.published == w.published
    ensures NodeInv(first, w', x)
  {
    hide IsMaximum, Blocked, Covers;
  }

  lemma NodesStep(first: Saved, w: World, e: Event, n: nat)
    requires Inv(first, w) && Enabled(w, e) && n in Next(w, e).nodes
    ensures NodeInv(first, Next(w, e), Next(w, e).nodes[n])
  {
    match e
    case Save(moment) => SaveInv(first, w, moment, w.nodes[n]);
    case Publish(moment) => PublishInv(first, w, moment, w.nodes[n]);
    case Subscribe(m) =>
      if n == m { SubscribeInv(first, w); }
      hide NodeInv, KeyInv;
      NodeInvStays(first, w, Next(w, e), Next(w, e).nodes[n]);
    case _ =>
      NodeStepInv(first, w, w.nodes[e.n], e);
      hide NodeInv, NodeStep, KeyInv;
      NodeInvStays(first, w, Next(w, e), Next(w, e).nodes[n]);
  }

  lemma Step(first: Saved, w: World, e: Event)
    requires Inv(first, w) && Enabled(w, e)
    ensures Inv(first, Next(w, e))
  {
    KeyStep(first, w, e);
    forall n | n in Next(w, e).nodes ensures NodeInv(first, Next(w, e), Next(w, e).nodes[n]) {
      NodesStep(first, w, e, n);
    }
    hide NodeInv, KeyInv, Next;
  }

  lemma {:induction false} Run(ws: seq<World>, es: seq<Event>, k: nat)
    requires IsRun(ws, es) && k < |ws|
    ensures Inv(ws[0].key, ws[k])
  {
    KeyRun(ws, es, 0);
    if k > 0 {
      Run(ws, es, k - 1);
      Step(ws[0].key, ws[k - 1], es[k - 1]);
    }
  }

  /**
   * A node's cutoff is the maximum of the moments it heard, from the channel or from the key, in
   * any order and however often; so a started node takes a task exactly when it was sent after
   * every one of them, and one without a usable timestamp only while it has heard none.
   */
  lemma RunsExactlyWhatItMay(ws: seq<World>, es: seq<Event>, k: nat, n: nat, sent: int)
    requires IsRun(ws, es) && k < |ws| && n in ws[k].nodes && ws[k].nodes[n].phase.Started?
    ensures Enabled(ws[k], RunTask(n, At(sent))) <==> forall m <- ws[k].nodes[n].heard :: m < sent
    ensures Enabled(ws[k], RunTask(n, Timestamp.NotFinite)) <==> ws[k].nodes[n].heard == {}
    ensures ws[k].nodes[n].heard <= ws[k].issued
  {
    Run(ws, es, k);
    assert NodeInv(ws[0].key, ws[k], ws[k].nodes[n]);
  }

  /**
   * A connected node ends at the maximum issued moment: once it has obeyed a read made since it last
   * subscribed (the read on start is one) and its inbox is empty, its cutoff is the latest stop of
   * all, provided no issuer stands between saving and publishing since then.
   */
  lemma ConnectedNodeEndsAtMaximum(ws: seq<World>, es: seq<Event>, k: nat, n: nat)
    requires IsRun(ws, es) && k < |ws| && n in ws[k].nodes
    requires var x := ws[k].nodes[n];
             x.connected && x.caughtUp && x.inbox == {} && ws[k].issued <= ws[k].published + x.base
    requires !Blocked(ws[0].key, ws[k].nodes[n].base)
    ensures IsMaximum(ws[k].nodes[n].cutoff, ws[k].issued)
  {
    Run(ws, es, k);
    assert NodeInv(ws[0].key, ws[k], ws[k].nodes[n]);
  }

  /** The read on start counts: a node that started and never lost its connection has obeyed one. */
  lemma StartCatchesUp(ws: seq<World>, es: seq<Event>, k: nat, n: nat)
    requires IsRun(ws, es) && k < |ws| && n in ws[k].nodes
    requires ws[k].nodes[n].phase.Attached? || ws[k].nodes[n].phase.Started?
    requires forall i :: 0 <= i < k ==> es[i] != Disconnect(n)
    ensures ws[k].nodes[n].connected && ws[k].nodes[n].caughtUp
  {
    NeverLost(ws, es, k, n);
  }

  lemma {:induction false} NeverLost(ws: seq<World>, es: seq<Event>, k: nat, n: nat)
    requires IsRun(ws, es) && k < |ws| && n in ws[k].nodes && forall i :: 0 <= i < k ==> es[i] != Disconnect(n)
    ensures var x := ws[k].nodes[n];
            && x.connected && x.epoch == 0 && (x.phase.Read? ==> x.phase.at == 0)
            && (x.phase.Attached? || x.phase.Started? ==> x.caughtUp)
  {
    if k > 0 {
      assert Enabled(ws[k - 1], es[k - 1]) && ws[k] == Next(ws[k - 1], es[k - 1]);
      if n in ws[k - 1].nodes {
        NeverLost(ws, es, k - 1, n);
      }
    }
  }

  /** A node whose read on start failed never takes a task. */
  lemma {:induction false} FailedNodeNeverRuns(ws: seq<World>, es: seq<Event>, i: nat, j: nat, n: nat)
    requires IsRun(ws, es) && i < j < |ws| && es[i] == StartFails(n)
    ensures n in ws[j].nodes && ws[j].nodes[n].phase.Failed?
    ensures forall sent :: !Enabled(ws[j], RunTask(n, sent))
    decreases j
  {
    assert Enabled(ws[j - 1], es[j - 1]) && ws[j] == Next(ws[j - 1], es[j - 1]);
    if i + 1 < j {
      FailedNodeNeverRuns(ws, es, i, j - 1, n);
    }
  }

  lemma Extends(ws: seq<World>, es: seq<Event>, e: Event)
    requires IsRun(ws, es) && Enabled(ws[|es|], e)
    ensures IsRun(ws + [Next(ws[|es|], e)], es + [e])
  {
    hide Next, Enabled;
  }

  /**
   * A connection can be lost at any time, and with it whatever is on its way; what is published then
   * does not arrive.
   */
  lemma LostConnection(ws: seq<World>, es: seq<Event>, n: nat, moment: int)
    requires IsRun(ws, es) && n in ws[|es|].nodes && ws[|es|].nodes[n].connected
    ensures Enabled(ws[|es|], Disconnect(n))
    ensures var w := Next(ws[|es|], Disconnect(n));
            && n in w.nodes && w.nodes[n] == ws[|es|].nodes[n].(connected := false, inbox := {})
            && !Enabled(w, Receive(n, moment))
            && (moment in w.issued ==>
                  n in Next(w, Publish(moment)).nodes && Next(w, Publish(moment)).nodes[n] == w.nodes[n])
  {
  }

  /** What is published reaches every connected node, and leaves its inbox when it is received. */
  lemma Delivered(ws: seq<World>, es: seq<Event>, n: nat, moment: int)
    requires IsRun(ws, es) && n in ws[|es|].nodes && ws[|es|].nodes[n].connected && moment in ws[|es|].issued
    ensures Enabled(ws[|es|], Publish(moment))
    ensures var w := Next(ws[|es|], Publish(moment));
            && n in w.nodes && moment in w.nodes[n].inbox && moment in w.published && Enabled(w, Receive(n, moment))
            && var x, x' := w.nodes[n], Next(w, Receive(n, moment)).nodes[n];
               && x'.inbox == x.inbox - {moment} && x'.heard == x.heard + {moment} && x'.phase == x.phase
               && NotBefore(x'.cutoff, moment)
  {
  }

  /** A node that lost its connection can always catch up: it resubscribes, reads the key, and obeys what it read. */
  lemma CanCatchUp(ws: seq<World>, es: seq<Event>, n: nat) returns (ws': seq<World>, es': seq<Event>)
    requires IsRun(ws, es) && n in ws[|es|].nodes && !ws[|es|].nodes[n].connected
    ensures IsRun(ws', es') && |es'| == |es| + 3 && es'[..|es|] == es
    ensures es'[|es|] == Resubscribe(n) && es'[|es| + 1] == CatchUpRead(n) && es'[|es| + 2].CatchUpDeliver?
    ensures n in ws'[|es'|].nodes
    ensures var x := ws'[|es'|].nodes[n];
            && x.connected && x.caughtUp && x.base == ws[|es|].issued && x.phase == ws[|es|].nodes[n].phase
            && x.epoch == ws[|es|].nodes[n].epoch + 1 && x.asked <= ws[|es|].nodes[n].asked
            && (ws[|es|].key.Holds? ==> NotBefore(x.cutoff, ws[|es|].key.moment))
  {
    var w := ws[|es|];
    var read := CatchUp(w.key, w.nodes[n].epoch + 1);
    ws', es' := ws, es;
    Extends(ws', es', Resubscribe(n));
    ws', es' := ws' + [Next(ws'[|es'|], Resubscribe(n))], es' + [Resubscribe(n)];
    Extends(ws', es', CatchUpRead(n));
    ws', es' := ws' + [Next(ws'[|es'|], CatchUpRead(n))], es' + [CatchUpRead(n)];
    Extends(ws', es', CatchUpDeliver(n, read));
    ws', es' := ws' + [Next(ws'[|es'|], CatchUpDeliver(n, read))], es' + [CatchUpDeliver(n, read)];
    hide IsRun;
  }

  // ----- Where the guarantee ends -----

  /**
   * The read, not the start of the actor, is what a stop must precede: a stop saved after the read
   * and before the actor starts can be outrun by a task sent before it, until its message arrives.
   */
  lemma StopAfterReadCanBeOutrun() returns (ws: seq<World>, es: seq<Event>)
    ensures IsRun(ws, es) && |es| == 6
    ensures es[3] == Save(10) && es[4] == StartActor(0) && es[5] == RunTask(0, At(5))
    ensures SentBeforeStop(At(5), Since(10)) && ws[4].key == Holds(10)
  {
    es := [Subscribe(0), StartRead(0), StartDeliver(0), Save(10), StartActor(0), RunTask(0, At(5))];
    var w0 := World(Absent, {}, {}, map[]);
    var w1 := Next(w0, es[0]);
    var w2 := Next(w1, es[1]);
    var w3 := Next(w2, es[2]);
    var w4 := Next(w3, es[3]);
    var w5 := Next(w4, es[4]);
    var w6 := Next(w5, es[5]);
    ws := [w0, w1, w2, w3, w4, w5, w6];
    hide Next, Enabled;
  }

  /** A refused value with a later moment keeps a stop from being saved: a node that starts after it runs the task. */
  lemma RefusedValueHidesStop() returns (ws: seq<World>, es: seq<Event>)
    ensures IsRun(ws, es) && |es| == 6 && ws[0].key == Rejected(20)
    ensures es[0] == Save(10) && es[2] == StartRead(0) && es[5] == RunTask(0, At(5))
    ensures SentBeforeStop(At(5), Since(10))
  {
    es := [Save(10), Subscribe(0), StartRead(0), StartDeliver(0), StartActor(0), RunTask(0, At(5))];
    var w0 := World(Rejected(20), {}, {}, map[]);
    var w1 := Next(w0, es[0]);
    var w2 := Next(w1, es[1]);
    var w3 := Next(w2, es[2]);
    var w4 := Next(w3, es[3]);
    var w5 := Next(w4, es[4]);
    var w6 := Next(w5, es[5]);
    ws := [w0, w1, w2, w3, w4, w5, w6];
    hide Next, Enabled;
  }
}
