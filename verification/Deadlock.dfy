/** The two bounded channels while the manager is inside the reconciliation: it sends to the
    creator but receives nothing, the creator answers some messages through the manager's
    queue, and other senders fill that queue at will. */
module Deadlock {
  import opened Collections
  import opened Identities
  import opened ManagerModel
  import opened Reconciliation

  const CAPACITY: nat := 50

  /** Messages the creator answers with a message to the manager. */
  predicate Answered(msg: CreatorMsg) {
    msg.CreateIdentity? || msg.ActivateServiceUser?
  }

  /** `todo` are the sends the manager has still to perform, `cq` the creator's queue,
      `answering` says that the creator holds an answer it has still to send, and `mq` is
      the fill level of the manager's queue. */
  datatype Net = Net(todo: seq<CreatorMsg>, cq: seq<CreatorMsg>, answering: bool, mq: nat)

  datatype Event = Send | Take(failed: bool) | Answer | OtherSender

  /** Only the creation of a user can fail before it is answered. */
  predicate Enabled(n: Net, e: Event) {
    match e
    case Send => n.todo != [] && |n.cq| < CAPACITY
    case Take(failed) => !n.answering && n.cq != [] && (failed ==> n.cq[0].CreateIdentity?)
    case Answer => n.answering && n.mq < CAPACITY
    case OtherSender => n.mq < CAPACITY
  }

  function Next(n: Net, e: Event): Net
    requires Enabled(n, e)
  {
    match e
    case Send => n.(todo := n.todo[1..], cq := n.cq + [n.todo[0]])
    case Take(failed) => n.(cq := n.cq[1..], answering := Answered(n.cq[0]) && !failed)
    case Answer => n.(answering := false, mq := n.mq + 1)
    case OtherSender => n.(mq := n.mq + 1)
  }

  predicate Runs(n: Net, es: seq<Event>)
    decreases es
  {
    es == [] || (Enabled(n, es[0]) && Runs(Next(n, es[0]), es[1..]))
  }

  function After(n: Net, es: seq<Event>): Net
    requires Runs(n, es)
    decreases es
  {
    if es == [] then n else After(Next(n, es[0]), es[1..])
  }

  /** The manager has something to send, and neither it nor the creator can move. */
  predicate Stuck(n: Net) {
    n.todo != [] && !Enabled(n, Send) && !Enabled(n, Take(false)) && !Enabled(n, Answer)
  }

  /** `es` leads from `n` into a deadlock. */
  predicate DeadlocksBy(n: Net, es: seq<Event>) {
    Runs(n, es) && Stuck(After(n, es))
  }

  ghost predicate CanDeadlock(n: Net) {
    exists es :: DeadlocksBy(n, es)
  }

  // ---------- A deadlock takes 52 answered messages ----------

  predicate AllAnswered(q: seq<CreatorMsg>) {
    forall msg :: msg in q ==> Answered(msg)
  }

  predicate NoneAnswered(q: seq<CreatorMsg>) {
    forall msg :: msg in q ==> !Answered(msg)
  }

  /** What the creator has not taken yet is the end of everything it will ever get, and the
      answer it holds is for the message just before. */
  predicate InOrder(n: Net, all: seq<CreatorMsg>) {
    var rest := n.cq + n.todo;
    && |rest| <= |all| && rest == all[|all| - |rest|..]
    && |n.cq| <= CAPACITY && n.mq <= CAPACITY
    && (n.answering ==> |rest| < |all| && Answered(all[|all| - |rest| - 1]))
  }

  lemma StepInOrder(n: Net, all: seq<CreatorMsg>, e: Event)
    requires InOrder(n, all) && Enabled(n, e)
    ensures InOrder(Next(n, e), all)
  {
  }

  lemma {:induction false} RunInOrder(n: Net, all: seq<CreatorMsg>, es: seq<Event>)
    requires InOrder(n, all) && Runs(n, es)
    ensures InOrder(After(n, es), all)
    decreases es
  {
    if es != [] {
      StepInOrder(n, all, es[0]);
      RunInOrder(Next(n, es[0]), all, es[1..]);
    }
  }

  lemma StuckNeedsAnswers(n: Net, quiet: seq<CreatorMsg>, loud: seq<CreatorMsg>)
    requires InOrder(n, quiet + loud) && NoneAnswered(quiet) && Stuck(n)
    ensures |loud| >= CAPACITY + 2
  {
  }

  // ---------- and 52 are enough ----------

  lemma {:induction false} RunsConcat(n: Net, es: seq<Event>, fs: seq<Event>)
    requires Runs(n, es) && Runs(After(n, es), fs)
    ensures Runs(n, es + fs) && After(n, es + fs) == After(After(n, es), fs)
    decreases es
  {
    if es == [] {
      assert es + fs == fs;
    } else {
      assert (es + fs)[1..] == es[1..] + fs && (es + fs)[0] == es[0];
      RunsConcat(Next(n, es[0]), es[1..], fs);
    }
  }

  lemma {:induction false} FillByOthers(n: Net) returns (es: seq<Event>)
    requires n.mq <= CAPACITY
    ensures Runs(n, es) && After(n, es) == n.(mq := CAPACITY)
    decreases CAPACITY - n.mq
  {
    if n.mq == CAPACITY {
      es := [];
    } else {
      var rest := FillByOthers(Next(n, OtherSender));
      es := [OtherSender] + rest;
      assert es[1..] == rest;
    }
  }

  /** The creator works off messages it does not answer. */
  lemma {:induction false} Drain(n: Net) returns (es: seq<Event>)
    requires !n.answering && NoneAnswered(n.cq)
    ensures Runs(n, es) && After(n, es) == n.(cq := [])
    decreases n.cq
  {
    if n.cq == [] {
      es := [];
    } else {
      var rest := Drain(Next(n, Take(false)));
      es := [Take(false)] + rest;
      assert es[1..] == rest;
    }
  }

  /** Messages without an answer pass through one by one. */
  lemma {:induction false} Relay(n: Net, quiet: seq<CreatorMsg>, loud: seq<CreatorMsg>) returns (es: seq<Event>)
    requires !n.answering && n.cq == [] && n.todo == quiet + loud && NoneAnswered(quiet)
    ensures Runs(n, es) && After(n, es) == n.(todo := loud)
    decreases quiet
  {
    if quiet == [] {
      assert quiet + loud == loud;
      es := [];
    } else {
      var n1 := Next(n, Send);
      assert n1.cq == [quiet[0]] && quiet[0] in quiet;
      var n2 := Next(n1, Take(false));
      assert n2.todo == quiet[1..] + loud;
      var rest := Relay(n2, quiet[1..], loud);
      es := [Send, Take(false)] + rest;
      assert es[1..] == [Take(false)] + rest && es[1..][1..] == rest;
    }
  }

  lemma {:induction false} SendMany(n: Net, k: nat) returns (es: seq<Event>)
    requires k <= |n.todo| && |n.cq| + k <= CAPACITY
    ensures Runs(n, es) && After(n, es) == n.(todo := n.todo[k..], cq := n.cq + n.todo[..k])
    decreases k
  {
    if k == 0 {
      assert n.todo[0..] == n.todo && n.cq + n.todo[..0] == n.cq;
      es := [];
    } else {
      var n1 := Next(n, Send);
      var rest := SendMany(n1, k - 1);
      es := [Send] + rest;
      assert es[1..] == rest;
      assert n1.todo[k - 1..] == n.todo[k..] && n1.cq + n1.todo[..k - 1] == n.cq + n.todo[..k];
    }
  }

  lemma LoudGetsStuck(n: Net) returns (es: seq<Event>)
    requires !n.answering && n.cq == [] && n.mq == CAPACITY
    requires AllAnswered(n.todo) && |n.todo| >= CAPACITY + 2
    ensures Runs(n, es) && Stuck(After(n, es))
  {
    var n1 := Next(n, Send);
    assert n1.cq == [n.todo[0]] && n.todo[0] in n.todo;
    var n2 := Next(n1, Take(false));
    var rest := SendMany(n2, CAPACITY);
    es := [Send, Take(false)] + rest;
    assert es[1..] == [Take(false)] + rest && es[1..][1..] == rest;
  }

  lemma ReachesStuck(n: Net, quiet: seq<CreatorMsg>, loud: seq<CreatorMsg>) returns (es: seq<Event>)
    requires !n.answering && NoneAnswered(n.cq) && n.mq <= CAPACITY
    requires n.todo == quiet + loud && NoneAnswered(quiet) && AllAnswered(loud) && |loud| >= CAPACITY + 2
    ensures Runs(n, es) && Stuck(After(n, es))
  {
    var a := FillByOthers(n);
    var n1 := After(n, a);
    var b := Drain(n1);
    RunsConcat(n, a, b);
    var n2 := After(n, a + b);
    var c := Relay(n2, quiet, loud);
    RunsConcat(n, a + b, c);
    var n3 := After(n, a + b + c);
    var d := LoudGetsStuck(n3);
    RunsConcat(n, a + b + c, d);
    es := a + b + c + d;
  }

  // ---------- The reconciliation ----------

  /** The state in which the reconciliation starts: nothing the creator still has to do
      needs an answer. */
  ghost predicate StartsReconciling(n: Net, m: Manager, sched: Schedule, api: Api) {
    && Keyed(m) && ValidSchedule(m, sched, api)
    && n.todo == Reconcile(m, sched, api).toCreator
    && !n.answering && NoneAnswered(n.cq) && |n.cq| <= CAPACITY && n.mq <= CAPACITY
  }

  ghost function Quiet(m: Manager, sched: Schedule, api: Api): seq<CreatorMsg>
    requires ValidSchedule(m, sched, api)
  {
    var e := DeletionLoops(m, sched, api);
    e.toCreator + [ReconcileSDPUsers(UserNames(e.manager))]
  }

  lemma ReconcileIsQuietThenLoud(m: Manager, sched: Schedule, api: Api)
    requires Keyed(m) && ValidSchedule(m, sched, api)
    ensures Reconcile(m, sched, api).toCreator == Quiet(m, sched, api) + MissingLoop(m, sched, api).toCreator
    ensures NoneAnswered(Quiet(m, sched, api)) && AllAnswered(MissingLoop(m, sched, api).toCreator)
  {
    DeletionLoopsMessages(m, sched, api);
    RequestAllMessages(DeletionLoops(m, sched, api).manager, Pick(m.missing, sched.missing), api);
  }

  /** A deadlock can be reached exactly when the last loop sends at least 52 messages. */
  lemma DeadlockByMessages(n: Net, m: Manager, sched: Schedule, api: Api)
    requires StartsReconciling(n, m, sched, api)
    ensures CanDeadlock(n) <==> |MissingLoop(m, sched, api).toCreator| >= CAPACITY + 2
  {
    ReconcileIsQuietThenLoud(m, sched, api);
    var quiet, loud := Quiet(m, sched, api), MissingLoop(m, sched, api).toCreator;
    if es :| DeadlocksBy(n, es) {
      StuckRunNeedsAnswers(n, quiet, loud, es);
    }
    if |loud| >= CAPACITY + 2 {
      var es := ReachesStuck(n, quiet, loud);
      assert DeadlocksBy(n, es);
    }
  }

  lemma StuckRunNeedsAnswers(n: Net, quiet: seq<CreatorMsg>, loud: seq<CreatorMsg>, es: seq<Event>)
    requires n.todo == quiet + loud && NoneAnswered(quiet)
    requires !n.answering && NoneAnswered(n.cq) && |n.cq| <= CAPACITY && n.mq <= CAPACITY
    requires Runs(n, es) && Stuck(After(n, es))
    ensures |loud| >= CAPACITY + 2
  {
    assert n.cq + n.todo == n.cq + quiet + loud;
    RunInOrder(n, n.cq + quiet + loud, es);
    StuckNeedsAnswers(After(n, es), n.cq + quiet, loud);
  }

  // ---------- The condition, before the reconciliation starts ----------

  /** The candidates that will find no identity when their turn comes. */
  function UnservedKeys(m: Manager, api: Api): set<string> {
    set k | k in m.missing && !(k in m.services && Survives(m, k, api))
  }

  /** Too many requests for the two channels: with `users` in the pool and `waiting`
      candidates to serve. */
  predicate TooMany(users: nat, waiting: nat) {
    var served := Min(users, waiting);
    served >= CAPACITY + 2 || 2 * served >= users + CAPACITY + 2 - POOL_LOW_MARK
  }

  lemma TooManyMessages(users: nat, waiting: nat)
    ensures GrantMessages(users, Min(users, waiting)) >= CAPACITY + 2 <==> TooMany(users, waiting)
  {
    GrantMessagesValue(users, Min(users, waiting));
  }

  lemma UnservedAfterDeletions(m: Manager, sched: Schedule, api: Api)
    requires Keyed(m) && ValidSchedule(m, sched, api)
    ensures m.missing.Keys - DeletionLoops(m, sched, api).manager.services.Keys == UnservedKeys(m, api)
    ensures DeletionLoops(m, sched, api).manager.pool == m.pool
  {
    DeletionLoopsLeaveSurvivors(m, sched, api);
  }

  lemma LoudMessages(m: Manager, sched: Schedule, api: Api)
    requires Keyed(m) && ValidSchedule(m, sched, api)
    ensures var sent := |MissingLoop(m, sched, api).toCreator|;
            var bound := GrantMessages(|m.pool|, Min(|m.pool|, |UnservedKeys(m, api)|));
            sent <= bound && (AllCreated(api) ==> sent == bound)
  {
    UnservedAfterDeletions(m, sched, api);
    MissingLoopServes(m, sched, api);
    RequestAllMessages(DeletionLoops(m, sched, api).manager, Pick(m.missing, sched.missing), api);
  }

  /** When the API accepts every new identity, a deadlock can be reached exactly when pooled
      users and waiting candidates are too many. */
  lemma DeadlockExactly(n: Net, m: Manager, sched: Schedule, api: Api)
    requires StartsReconciling(n, m, sched, api) && AllCreated(api)
    ensures CanDeadlock(n) <==> TooMany(|m.pool|, |UnservedKeys(m, api)|)
  {
    DeadlockByMessages(n, m, sched, api);
    LoudMessages(m, sched, api);
    TooManyMessages(|m.pool|, |UnservedKeys(m, api)|);
  }

  /** Otherwise, whatever the API answers, in every state reached during the reconciliation
      the manager or the creator can move, however full others keep the manager's queue. */
  lemma NoDeadlock(n: Net, m: Manager, sched: Schedule, api: Api, es: seq<Event>)
    requires StartsReconciling(n, m, sched, api) && Runs(n, es)
    requires !TooMany(|m.pool|, |UnservedKeys(m, api)|)
    ensures !Stuck(After(n, es))
  {
    assert Stuck(After(n, es)) ==> DeadlocksBy(n, es);
    DeadlockByMessages(n, m, sched, api);
    LoudMessages(m, sched, api);
    TooManyMessages(|m.pool|, |UnservedKeys(m, api)|);
  }

  /** Up to 41 pooled users are never too many; from 42 on there is a number of candidates
      that is. */
  lemma SafePoolSize(users: nat)
    ensures (forall waiting: nat :: !TooMany(users, waiting)) <==> users <= 41
  {
    if users >= 42 {
      assert TooMany(users, users);
    }
  }

  // ---------- A manager that sends to itself ----------

  /** The manager's own queue while a handler runs: `offered` messages of other senders may
      still arrive before the handler ends, and nobody receives. */
  datatype OwnQueue = OwnQueue(queued: nat, offered: nat, toSelf: seq<ManagerMsg>)

  datatype OwnEvent = OtherArrives | SelfSends

  predicate OwnEnabled(q: OwnQueue, e: OwnEvent) {
    q.queued < CAPACITY && (if e.OtherArrives? then q.offered > 0 else q.toSelf != [])
  }

  function OwnNext(q: OwnQueue, e: OwnEvent): OwnQueue
    requires OwnEnabled(q, e)
  {
    if e.OtherArrives? then q.(queued := q.queued + 1, offered := q.offered - 1)
    else q.(queued := q.queued + 1, toSelf := q.toSelf[1..])
  }

  predicate OwnRuns(q: OwnQueue, es: seq<OwnEvent>)
    decreases es
  {
    es == [] || (OwnEnabled(q, es[0]) && OwnRuns(OwnNext(q, es[0]), es[1..]))
  }

  function OwnAfter(q: OwnQueue, es: seq<OwnEvent>): OwnQueue
    requires OwnRuns(q, es)
    decreases es
  {
    if es == [] then q else OwnAfter(OwnNext(q, es[0]), es[1..])
  }

  /** The handler waits for a slot that only the manager itself could free. */
  predicate Blocked(q: OwnQueue) {
    q.toSelf != [] && q.queued == CAPACITY
  }

  predicate BlocksBy(q: OwnQueue, es: seq<OwnEvent>) {
    OwnRuns(q, es) && Blocked(OwnAfter(q, es))
  }

  ghost predicate CanBlock(q: OwnQueue) {
    exists es :: BlocksBy(q, es)
  }

  lemma {:induction false} BlockedNeedsArrivals(q: OwnQueue, es: seq<OwnEvent>)
    requires |q.toSelf| <= 1 && BlocksBy(q, es)
    ensures q.toSelf != [] && q.queued + q.offered >= CAPACITY
    decreases es
  {
    if es != [] {
      BlockedNeedsArrivals(OwnNext(q, es[0]), es[1..]);
    }
  }

  lemma {:induction false} ArrivalsBlock(q: OwnQueue) returns (es: seq<OwnEvent>)
    requires q.toSelf != [] && q.queued <= CAPACITY <= q.queued + q.offered
    ensures BlocksBy(q, es)
    decreases CAPACITY - q.queued
  {
    if q.queued == CAPACITY {
      es := [];
    } else {
      var rest := ArrivalsBlock(OwnNext(q, OtherArrives));
      es := [OtherArrives] + rest;
      assert es[1..] == rest;
    }
  }

  /** The messages whose handlers send to the manager itself. */
  predicate SendsToSelf(m: Manager, msg: ManagerMsg) {
    || (msg.DeletedServiceCandidate? && msg.candidate.namespace.Some? && msg.candidate.ServiceId().value in m.services)
    || (msg.IdentityCreatorReady? && m.watchersReady == N_WATCHERS)
    || (msg.DeploymentWatcherReady? && m.watchersReady + 1 == N_WATCHERS && m.creatorReady)
  }

  /** A handler can block for ever on its own queue exactly when it deletes a registered
      service or completes the start-up, and what others offer while it runs fills the slots
      left after its message was received. */
  lemma HandlerBlocksExactly(m: Manager, msg: ManagerMsg, api: Api, queued: nat, offered: nat)
    requires queued < CAPACITY
    ensures CanBlock(OwnQueue(queued, offered, Handle(m, msg, api).toSelf)) <==>
            SendsToSelf(m, msg) && queued + offered >= CAPACITY
  {
    var q := OwnQueue(queued, offered, Handle(m, msg, api).toSelf);
    if es :| BlocksBy(q, es) {
      BlockedNeedsArrivals(q, es);
    }
    if q.toSelf != [] && queued + offered >= CAPACITY {
      var es := ArrivalsBlock(q);
      assert BlocksBy(q, es);
    }
  }
}
