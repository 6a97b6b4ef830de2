/**
 What the host's own history can tell about the next completion. Any pattern of answered and unanswered calls can
 happen after bring-up, with every unanswered command still in flight. So the number of commands and the
 number of timeouts decide exactly when an accepted completion can be trusted.
 */
module History {
  import opened Bytes
  import opened NvmeSpec
  import opened Ring
  import opened Controller
  import opened System
  import opened Submit
  import opened Scripted
  import opened BringUp
  import opened Effect
  import opened Progress
  import opened Delivery
  import opened Reached
  import opened Wrappers

  // --- patterns of calls ----------------------------------------------------------------------------------------

  /** How many calls of a pattern were answered. */
  function Answered(pattern: seq<bool>): nat {
    if pattern == [] then 0
    else Answered(pattern[..|pattern| - 1]) + if pattern[|pattern| - 1] then 1 else 0
  }

  function Unheard(pattern: seq<bool>): set<nat> {
    set k | 0 <= k < |pattern| && !pattern[k]
  }

  lemma OneMore(pattern: seq<bool>, answer: bool)
    ensures Answered(pattern + [answer]) == Answered(pattern) + if answer then 1 else 0
    ensures Unheard(pattern + [answer]) == if answer then Unheard(pattern) else Unheard(pattern) + {|pattern|}
  {
    assert (pattern + [answer])[..|pattern|] == pattern;
    hide Answered, Unheard;
    forall k: nat
      ensures k in Unheard(pattern + [answer]) <==> k in Unheard(pattern) || (!answer && k == |pattern|)
    {
      InUnheard(pattern, k);
      InUnheard(pattern + [answer], k);
    }
  }

  lemma InUnheard(pattern: seq<bool>, k: nat)
    ensures k in Unheard(pattern) <==> k < |pattern| && !pattern[k]
  {
  }

  lemma {:induction false} AtMostAll(pattern: seq<bool>)
    ensures Answered(pattern) <= |pattern|
  {
    if pattern != [] {
      AtMostAll(pattern[..|pattern| - 1]);
    }
  }

  /** Everything has been fetched in order; what was answered has been read, the rest is in flight. */
  predicate Follows(c: CtlQueue, pattern: seq<bool>) {
    && c.sqSize == c.cqSize == 64 && c.fetched == c.rung == |pattern|
    && |c.posted| == Answered(pattern) && c.jobs.Keys == Unheard(pattern)
    && |c.origins| == |pattern| && InStep(c.origins)
  }

  predicate Counts(h: HostQueue, pattern: seq<bool>) {
    |h.submitted| == |pattern| && h.consumed == Answered(pattern) && h.consumed + h.timeouts == |pattern|
  }

  predicate Along(w: World, h: HostQueue, q: nat, pattern: seq<bool>)
    requires WorldOk(w) && q < 2
  {
    Live(w) && Follows(w.ctl.queues[q], pattern) && Counts(h, pattern)
  }

  /** What the next call on a queue may do: its command is fetched, and then answered or not. */
  function NextActions(q: nat, pattern: seq<bool>, answer: bool): seq<Action> {
    if answer then FailNext(q, |pattern|) else [Fetch(q)]
  }

  /** The queue with the next command announced. */
  lemma NextAnnounced(dev: Device, before: seq<U8>, w: World, hosts: seq<HostQueue>, q: nat, command: Sqe,
                      pattern: seq<bool>)
    requires Callable(dev, before, w, hosts, q, command)
    requires ValidDevice(dev) && WorldOk(w) && |hosts| == 2 && q < 2 && HostFits(hosts[q])
    requires Along(w, hosts[q], q, pattern)
    ensures var v, g := Begun(dev, w, hosts[q], command), Called(hosts[q], command); var c := v.ctl.queues[q];
      && SysInv(dev, before, v, hosts[q := g]) && Live(v) && CanFetch(c) && c.rung == |pattern| + 1
      && c == w.ctl.queues[q].(sqTail := c.sqTail, rung := c.rung)
  {
    hide Callable, SysInv, ValidDevice, Called, HostFits, Waiting, CanFetch, Begun, InStep;
    CallableShape(dev, before, w, hosts, q, command);
    BegunKeeps(dev, before, w, hosts, q, command);
    BegunFacts(dev, w, hosts[q], command);
    PointerFacts(dev, before, w, hosts, q);
    FetchableNow(dev, before, Begun(dev, w, hosts[q], command), hosts[q := Called(hosts[q], command)], q);
  }

  /** A call that gives up, although its command has been fetched. */
  lemma UnheardCall(dev: Device, before: seq<U8>, w: World, hosts: seq<HostQueue>, q: nat, command: Sqe, limit: nat,
                    pattern: seq<bool>)
    requires Callable(dev, before, w, hosts, q, command)
    requires ValidDevice(dev) && WorldOk(w) && |hosts| == 2 && q < 2 && HostFits(hosts[q])
    requires Along(w, hosts[q], q, pattern)
    ensures var o := SubmitAndWait(dev, Once([Fetch(q)], w.clock + 2), w, hosts[q], command, limit);
      Along(o.w, o.h, q, pattern + [false]) && o.result == Err(TimedOut)
  {
    hide Callable, SysInv, SubmitAndWait, ValidDevice, Begun, Called, Once, Run, ActsOnce, HostFits, Ending,
         Follows, CanFetch, NextInFlight, NextOrigin;
    CallableShape(dev, before, w, hosts, q, command);
    var h, sched := hosts[q], Once([Fetch(q)], w.clock + 2);
    var v, g := Begun(dev, w, h, command), Called(h, command);
    NextAnnounced(dev, before, w, hosts, q, command, pattern);
    CalledCounts(h, command);
    FollowsFacts(w.ctl.queues[q], pattern);
    NextFetched(dev, before, v, hosts[q := g], q);
    StuckOrigin(w.ctl.queues[q], v.ctl.queues[q]);
    RunOne(dev, v, Fetch(q));
    OnceActs([Fetch(q)], w.clock);
    OnceCall(dev, before, sched, w, hosts, q, command, limit, [Fetch(q)]);
    var u := Step(dev, v, Fetch(q));
    FollowsFetch(w.ctl.queues[q], v.ctl.queues[q], u.ctl.queues[q], pattern);
    UnheardEnding(dev, u, g, q, h.cid, w.clock, limit, pattern);
  }

  lemma FollowsFacts(c: CtlQueue, pattern: seq<bool>)
    requires Follows(c, pattern)
    ensures c.sqSize == c.cqSize == 64 && c.fetched == c.rung == |pattern| && |c.posted| == Answered(pattern)
  {
  }

  lemma StuckOrigin(c: CtlQueue, d: CtlQueue)
    requires c.fetched == c.rung && d.fetched == c.fetched && d.rung == c.rung + 1
    ensures NextOrigin(d) == c.fetched
  {
  }

  lemma FollowsFetch(b: CtlQueue, c: CtlQueue, d: CtlQueue, pattern: seq<bool>)
    requires Follows(b, pattern) && c == b.(sqTail := c.sqTail, rung := |pattern| + 1)
    requires NextInFlight(c, d) && NextOrigin(c) == |pattern|
    ensures Follows(d, pattern + [false])
  {
    hide NextOrigin;
    OneMore(pattern, false);
  }

  lemma UnheardEnding(dev: Device, w: World, g: HostQueue, q: nat, cid: nat, start: nat, limit: nat, pattern: seq<bool>)
    requires WorldOk(w) && q < 2 && Live(w) && Follows(w.ctl.queues[q], pattern + [false]) && HostFits(g) && g.id == q
    requires |g.submitted| == |pattern| + 1 && g.consumed == Answered(pattern) && g.consumed + g.timeouts == |pattern|
    ensures var o := Ending(dev, w, g, cid, start, limit);
      Along(o.w, o.h, q, pattern + [false]) && o.result == Err(TimedOut)
  {
    hide HostFits, Answered, InStep, Unheard;
    OneMore(pattern, false);
  }

  /** A call that is answered, while every earlier unanswered command stays where it is. */
  lemma AnsweredCall(dev: Device, before: seq<U8>, w: World, hosts: seq<HostQueue>, q: nat, command: Sqe, limit: nat,
                     pattern: seq<bool>)
    requires Callable(dev, before, w, hosts, q, command)
    requires ValidDevice(dev) && WorldOk(w) && |hosts| == 2 && q < 2 && HostFits(hosts[q])
    requires Along(w, hosts[q], q, pattern)
    ensures var o := SubmitAndWait(dev, Once(FailNext(q, |pattern|), w.clock + 2), w, hosts[q], command, limit);
      Along(o.w, o.h, q, pattern + [true]) && o.result.Ok?
  {
    hide Callable, SysInv, SubmitAndWait, ValidDevice, Called, Once, FailNext, NextOrigin, HostFits, InStep,
         Unheard, FailedNext, Rung;
    CallableShape(dev, before, w, hosts, q, command);
    FailNextCall(dev, before, w, hosts, q, command, limit);
    CalledCounts(hosts[q], command);
    NextCid(dev, before, w, hosts, q);
    var c := w.ctl.queues[q];
    var o := SubmitAndWait(dev, Once(FailNext(q, |pattern|), w.clock + 2), w, hosts[q], command, limit);
    FollowsAnswer(c, (hosts[q].tail + 1) % 64, o.w.ctl.queues[q], pattern);
    OneMore(pattern, true);
  }

  lemma FollowsAnswer(b: CtlQueue, tail: nat, d: CtlQueue, pattern: seq<bool>)
    requires Follows(b, pattern) && FailedNext(Rung(b, tail), d)
    ensures Follows(d, pattern + [true]) && NextOrigin(Rung(b, tail)) == |pattern|
  {
    StuckOrigin(b, Rung(b, tail));
    hide NextOrigin;
    OneMore(pattern, true);
  }

  // --- runs -------------------------------------------------------------------------------------------------------

  /** The same command over and over. */
  function Repeat(command: Sqe, n: nat): (commands: seq<Sqe>)
    ensures |commands| == n
  {
    seq(n, _ => command)
  }

  lemma RepeatMore(command: Sqe, n: nat)
    ensures Repeat(command, n) + [command] == Repeat(command, n + 1)
  {
  }

  /** A run from a queue's first use on in which exactly the calls of the pattern are answered, with success. */
  ghost predicate PatternRun(dev: Device, before: seq<U8>, w: World, hosts: seq<HostQueue>, q: nat,
                             command: Sqe, limit: nat,
                             pattern: seq<bool>, scheds: seq<Schedule>)
    requires ValidDevice(dev) && WorldOk(w) && |hosts| == 2 && q < 2 && HostFits(hosts[q])
  {
    && |scheds| == |pattern|
    && var (u, g, results) := Calls(dev, scheds, w, hosts[q], Repeat(command, |pattern|), limit);
       && Callable(dev, before, u, hosts[q := g], q, command) && Along(u, g, q, pattern)
       && forall k :: 0 <= k < |pattern| ==> if pattern[k] then results[k].Ok? else results[k] == Err(TimedOut)
  }

  lemma NothingAlong(dev: Device, before: seq<U8>, w: World, hosts: seq<HostQueue>, q: nat)
    requires SysInv(dev, before, w, hosts) && q < 2 && WorldOk(w) && Unused(w, hosts[q], q)
    requires hosts[q].announced == |hosts[q].submitted|
    ensures Along(w, hosts[q], q, [])
  {
    hide SysInv, NumbersOk, OriginsOk, Live;
    PointerFacts(dev, before, w, hosts, q);
    assert Answered([]) == 0 && Unheard([]) == {};
  }

  lemma EmptyRun(dev: Device, before: seq<U8>, w: World, hosts: seq<HostQueue>, q: nat, command: Sqe, limit: nat)
    requires Callable(dev, before, w, hosts, q, command)
    requires ValidDevice(dev) && WorldOk(w) && |hosts| == 2 && q < 2 && HostFits(hosts[q]) && Unused(w, hosts[q], q)
    ensures PatternRun(dev, before, w, hosts, q, command, limit, [], [])
  {
    hide Callable, ValidDevice, HostFits, Along, Unused;
    CallableShape(dev, before, w, hosts, q, command);
    NothingAlong(dev, before, w, hosts, q);
    assert hosts[q := hosts[q]] == hosts;
  }

  /** The next call of a pattern. */
  lemma NextCall(dev: Device, before: seq<U8>, w: World, hosts: seq<HostQueue>, q: nat, command: Sqe, limit: nat,
                 pattern: seq<bool>, answer: bool)
    requires Callable(dev, before, w, hosts, q, command)
    requires ValidDevice(dev) && WorldOk(w) && |hosts| == 2 && q < 2 && HostFits(hosts[q])
    requires Along(w, hosts[q], q, pattern)
    ensures var sched := Once(NextActions(q, pattern, answer), w.clock + 2);
      var o := SubmitAndWait(dev, sched, w, hosts[q], command, limit);
      && Callable(dev, before, o.w, hosts[q := o.h], q, command) && Along(o.w, o.h, q, pattern + [answer])
      && if answer then o.result.Ok? else o.result == Err(TimedOut)
  {
    hide Callable, ValidDevice, SubmitAndWait, HostFits, Along, Once, FailNext;
    if answer {
      AnsweredCall(dev, before, w, hosts, q, command, limit, pattern);
    } else {
      UnheardCall(dev, before, w, hosts, q, command, limit, pattern);
    }
    CallAgain(dev, before, Once(NextActions(q, pattern, answer), w.clock + 2), w, hosts, q, command, limit);
  }

  lemma RunOneMore(dev: Device, before: seq<U8>, w: World, hosts: seq<HostQueue>, q: nat, command: Sqe, limit: nat,
                   pattern: seq<bool>, scheds: seq<Schedule>, answer: bool)
    returns (longer: seq<Schedule>)
    requires ValidDevice(dev) && WorldOk(w) && |hosts| == 2 && q < 2 && HostFits(hosts[q])
    requires PatternRun(dev, before, w, hosts, q, command, limit, pattern, scheds)
    ensures PatternRun(dev, before, w, hosts, q, command, limit, pattern + [answer], longer)
  {
    hide Callable, ValidDevice, SubmitAndWait, HostFits, Along, Once, Calls, NextActions, Repeat;
    var n := |pattern|;
    var (u, g, results) := Calls(dev, scheds, w, hosts[q], Repeat(command, n), limit);
    var later := hosts[q := g];
    CallableShape(dev, before, u, later, q, command);
    NextCall(dev, before, u, later, q, command, limit, pattern, answer);
    var sched := Once(NextActions(q, pattern, answer), u.clock + 2);
    longer := scheds + [sched];
    CallsGrow(dev, scheds, w, hosts[q], Repeat(command, n), limit, sched, command);
    RepeatMore(command, n);
    var o := SubmitAndWait(dev, sched, u, g, command, limit);
    assert later[q := o.h] == hosts[q := o.h];
  }

  /** Every pattern happens. */
  lemma {:induction false} EveryPattern(dev: Device, before: seq<U8>, w: World, hosts: seq<HostQueue>, q: nat,
                                        command: Sqe,
                                        limit: nat, pattern: seq<bool>)
    returns (scheds: seq<Schedule>)
    requires Callable(dev, before, w, hosts, q, command)
    requires ValidDevice(dev) && WorldOk(w) && |hosts| == 2 && q < 2 && HostFits(hosts[q]) && Unused(w, hosts[q], q)
    ensures PatternRun(dev, before, w, hosts, q, command, limit, pattern, scheds)
    decreases |pattern|
  {
    hide Callable, ValidDevice, HostFits, Unused, PatternRun;
    if pattern == [] {
      EmptyRun(dev, before, w, hosts, q, command, limit);
      scheds := [];
    } else {
      var last := |pattern| - 1;
      var shorter := EveryPattern(dev, before, w, hosts, q, command, limit, pattern[..last]);
      scheds := RunOneMore(dev, before, w, hosts, q, command, limit, pattern[..last], shorter, pattern[last]);
      assert pattern[..last] + [pattern[last]] == pattern;
    }
  }

  // --- a completion taken for another command's ---------------------------------------------------------------

  /** A command in flight that is a multiple of 2^16 older than the next makes the next call deceivable. */
  lemma UnheardConfuses(w: World, h: HostQueue, pattern: seq<bool>, k: nat)
    requires WorldOk(w) && Along(w, h, 0, pattern) && k < |pattern| && !pattern[k]
    requires k % 0x1_0000 == |pattern| % 0x1_0000
    ensures Confuses(h, w.ctl.queues[0], k)
  {
    hide Answered;
    assert k in Unheard(pattern);
  }

  /** A run after which the next call may accept another command's completion for its own. */
  ghost predicate Deceived(dev: Device, w: World, h: HostQueue, command: Sqe, limit: nat, scheds: seq<Schedule>)
    requires ValidDevice(dev) && WorldOk(w) && HostFits(h)
  {
    var (u, g, results) := Calls(dev, scheds, w, h, Repeat(command, |scheds|), limit);
    exists sched: Schedule ::
      var o := SubmitAndWait(dev, sched, u, g, command, limit); o.result.Ok? && !Ours(g, o)
  }

  lemma PatternDeceives(dev: Device, before: seq<U8>, w: World, hosts: seq<HostQueue>, command: Sqe, limit: nat,
                        pattern: seq<bool>, scheds: seq<Schedule>, k: nat)
    requires ValidDevice(dev) && WorldOk(w) && |hosts| == 2 && HostFits(hosts[0])
    requires PatternRun(dev, before, w, hosts, 0, command, limit, pattern, scheds)
    requires k < |pattern| && !pattern[k] && k % 0x1_0000 == |pattern| % 0x1_0000
    ensures |scheds| == |pattern| && Deceived(dev, w, hosts[0], command, limit, scheds)
  {
    hide Callable, ValidDevice, SubmitAndWait, HostFits, Once, Calls, Deceit, Ours, Along, Confuses;
    var (u, g, results) := Calls(dev, scheds, w, hosts[0], Repeat(command, |pattern|), limit);
    var later := hosts[0 := g];
    CallableShape(dev, before, u, later, 0, command);
    UnheardConfuses(u, g, pattern, k);
    Misdelivered(dev, before, u, later, 0, command, limit, k);
  }

  /**
   The wrong delivery is reached: for every device, after bring-up and any pattern of answered and unanswered calls
   in which one that gave up is a multiple of 2^16 older than the next call, there is a controller that follows
   the pattern and whose next completion is taken for another command's.
   */
  lemma MisdeliveryReached(dev: Device, w: World, limit: nat, pattern: seq<bool>, k: nat)
    requires Programmed(dev, w) && k < |pattern| && !pattern[k] && k % 0x1_0000 == |pattern| % 0x1_0000
    ensures ValidDevice(dev) && WorldOk(JustEnabled(w)) && HostFits(FreshHosts()[0])
    ensures exists scheds: seq<Schedule> ::
      var v := JustEnabled(w);
      && PatternRun(dev, w.ctl.media, v, FreshHosts(), 0, Asking(v), limit, pattern, scheds)
      && Deceived(dev, v, FreshHosts()[0], Asking(v), limit, scheds)
  {
    hide Callable, JustEnabled, FreshHosts, ValidDevice, Programmed, HostFits, Unused, PatternRun, Deceived, Asking;
    JustUnused(dev, w);
    var v := JustEnabled(w);
    CallableShape(dev, w.ctl.media, v, FreshHosts(), 0, Asking(v));
    var scheds := EveryPattern(dev, w.ctl.media, v, FreshHosts(), 0, Asking(v), limit, pattern);
    PatternDeceives(dev, w.ctl.media, v, FreshHosts(), Asking(v), limit, pattern, scheds, k);
  }

  // --- what the host can know ---------------------------------------------------------------------------------

  /** In every state with this many commands and timeouts an accepted completion is the call's own. */
  ghost predicate Trusted(dev: Device, n: nat, t: nat) {
    forall before: seq<U8>, w: World, hosts: seq<HostQueue>, q: nat, command: Sqe, limit: nat ::
      Callable(dev, before, w, hosts, q, command) && Counted(hosts, q, n, t)
      ==> NeverDeceived(dev, w, hosts, q, command, limit)
  }

  predicate Counted(hosts: seq<HostQueue>, q: nat, n: nat, t: nat) {
    q < |hosts| && |hosts[q].submitted| == n && hosts[q].timeouts == t
  }

  ghost predicate NeverDeceived(dev: Device, w: World, hosts: seq<HostQueue>, q: nat, command: Sqe, limit: nat) {
    && ValidDevice(dev) && WorldOk(w) && |hosts| == 2 && q < 2 && HostFits(hosts[q])
    && AlwaysOurs(dev, w, hosts[q], command, limit)
  }

  /** With nothing timed out, or too few commands for two to share an identifier, nothing can be confused. */
  lemma NothingConfusable(dev: Device, before: seq<U8>, w: World, hosts: seq<HostQueue>, q: nat, command: Sqe)
    requires Callable(dev, before, w, hosts, q, command)
    requires q < |hosts| && (hosts[q].timeouts == 0 || |hosts[q].submitted| < 0x1_0000)
    ensures WorldOk(w) && q < 2 && !Confusable(hosts[q], w.ctl.queues[q])
  {
    CallableShape(dev, before, w, hosts, q, command);
    hide Callable, SysInv, CommandOk, ListOk, IoReady, OriginsOk, NumbersOk, HostFits;
    PointerFacts(dev, before, w, hosts, q);
    OldEnough(hosts[q], w.ctl.queues[q]);
    if hosts[q].timeouts == 0 {
      QueueOf(dev, before, w, hosts, q);
      QuietQueue(w.mem, w.base, hosts[q], w.ctl.queues[q], q);
    }
  }

  lemma OldEnough(h: HostQueue, c: CtlQueue)
    requires OriginsOk(c, |h.submitted|) && NumbersOk(c) && h.consumed <= |c.posted|
    ensures Confusable(h, c) ==> |h.submitted| >= 0x1_0000 && (h.consumed < |c.posted| || c.jobs != map[])
  {
    hide NextOrigin;
    if Confusable(h, c) {
      var k := if h.consumed < |c.posted| then c.posted[h.consumed].number
               else var j :| j in c.jobs && SameIdentifier(c, j, |h.submitted|); j;
      SharedIdentifier(c.origins[k], |h.submitted|);
    }
  }

  lemma SharedIdentifier(a: nat, b: nat)
    requires a < b && a % 0x1_0000 == b % 0x1_0000
    ensures b >= 0x1_0000
  {
  }

  /** A pattern of `n` calls, `t` of them unanswered, among them number `n - 2^16`. */
  function Witness(n: nat, t: nat): (pattern: seq<bool>)
    requires n >= 0x1_0000 && 1 <= t <= n
    ensures |pattern| == n && !pattern[n - 0x1_0000]
  {
    var k := n - 0x1_0000;
    seq(n, i => if k < t then i >= t else i >= t - 1 && i != k)
  }

  lemma {:induction false} WitnessCount(n: nat, t: nat, i: nat)
    requires n >= 0x1_0000 && 1 <= t <= n && i <= n
    ensures var k := n - 0x1_0000;
      Answered(Witness(n, t)[..i])
      == if k < t then (if i < t then 0 else i - t)
         else if i < t - 1 then 0 else if i <= k then i - (t - 1) else i - t
    decreases i
  {
    if i > 0 {
      WitnessCount(n, t, i - 1);
      assert Witness(n, t)[..i][..i - 1] == Witness(n, t)[..i - 1];
    } else {
      assert Witness(n, t)[..0] == [];
    }
  }

  /**
   What the host can know, exactly: over all states with `n` commands submitted and `t` calls given up, an
   accepted completion is always the call's own if and only if nothing has timed out or fewer than 2^16 commands were
   submitted. (No state has more timeouts than commands.)
   */
  lemma TrustExact(dev: Device, w: World, n: nat, t: nat)
    requires Programmed(dev, w)
    ensures Trusted(dev, n, t) <==> t == 0 || n < 0x1_0000 || t > n
  {
    hide Callable, NeverDeceived, Programmed;
    if t == 0 || n < 0x1_0000 || t > n {
      forall before: seq<U8>, u: World, hosts: seq<HostQueue>, q: nat, command: Sqe, limit: nat
        | Callable(dev, before, u, hosts, q, command) && Counted(hosts, q, n, t)
        ensures NeverDeceived(dev, u, hosts, q, command, limit)
      {
        TrustedHere(dev, before, u, hosts, q, command, limit);
      }
    } else {
      Distrusted(dev, w, n, t, 0);
    }
  }

  lemma TrustedHere(dev: Device, before: seq<U8>, w: World, hosts: seq<HostQueue>, q: nat, command: Sqe, limit: nat)
    requires Callable(dev, before, w, hosts, q, command) && q < |hosts|
    requires var h := hosts[q]; h.timeouts == 0 || |h.submitted| < 0x1_0000 || h.timeouts > |h.submitted|
    ensures NeverDeceived(dev, w, hosts, q, command, limit)
  {
    CallableShape(dev, before, w, hosts, q, command);
    hide Callable, Confusable, AlwaysOurs;
    AllAccounted(hosts[q]);
    NothingConfusable(dev, before, w, hosts, q, command);
    DeliveryExact(dev, before, w, hosts, q, command, limit);
  }

  lemma DeceivedHere(dev: Device, before: seq<U8>, w: World, hosts: seq<HostQueue>, q: nat, command: Sqe, limit: nat,
                     k: nat)
    requires Callable(dev, before, w, hosts, q, command) && WorldOk(w) && q < 2 <= |hosts|
    requires Confuses(hosts[q], w.ctl.queues[q], k)
    ensures !NeverDeceived(dev, w, hosts, q, command, limit)
  {
    CallableShape(dev, before, w, hosts, q, command);
    hide Callable, SubmitAndWait, Confuses, Deceit, Ours, Once;
    Misdelivered(dev, before, w, hosts, q, command, limit, k);
  }

  lemma Untrusted(dev: Device, before: seq<U8>, w: World, hosts: seq<HostQueue>, q: nat, command: Sqe, limit: nat,
                  n: nat, t: nat)
    requires Callable(dev, before, w, hosts, q, command) && Counted(hosts, q, n, t)
    requires !NeverDeceived(dev, w, hosts, q, command, limit)
    ensures !Trusted(dev, n, t)
  {
    hide Callable, NeverDeceived, Counted;
  }

  /** After such a pattern the host cannot trust the next completion. */
  lemma PatternDistrusts(dev: Device, before: seq<U8>, w: World, hosts: seq<HostQueue>, command: Sqe, limit: nat,
                         pattern: seq<bool>, t: nat, k: nat, scheds: seq<Schedule>)
    requires ValidDevice(dev) && WorldOk(w) && |hosts| == 2 && HostFits(hosts[0])
    requires Answered(pattern) + t == |pattern|
    requires k < |pattern| && !pattern[k] && k % 0x1_0000 == |pattern| % 0x1_0000
    requires PatternRun(dev, before, w, hosts, 0, command, limit, pattern, scheds)
    ensures !Trusted(dev, |pattern|, t)
  {
    hide Callable, ValidDevice, HostFits, Answered, Calls, Along, NeverDeceived, Confuses, Trusted;
    var (u, g, results) := Calls(dev, scheds, w, hosts[0], Repeat(command, |pattern|), limit);
    var later := hosts[0 := g];
    CallableShape(dev, before, u, later, 0, command);
    UnheardConfuses(u, g, pattern, k);
    DeceivedHere(dev, before, u, later, 0, command, limit, k);
    AlongCounts(u, g, pattern);
    Untrusted(dev, before, u, later, 0, command, limit, |pattern|, t);
  }

  lemma Distrusted(dev: Device, w: World, n: nat, t: nat, limit: nat)
    requires Programmed(dev, w) && n >= 0x1_0000 && 1 <= t <= n
    ensures !Trusted(dev, n, t)
  {
    hide Callable, JustEnabled, FreshHosts, ValidDevice, Programmed, HostFits, Unused, Asking, PatternRun, Witness,
         Trusted, Answered;
    JustUnused(dev, w);
    var v := JustEnabled(w);
    CallableShape(dev, w.ctl.media, v, FreshHosts(), 0, Asking(v));
    var scheds := EveryPattern(dev, w.ctl.media, v, FreshHosts(), 0, Asking(v), limit, Witness(n, t));
    WitnessCounts(n, t);
    PatternDistrusts(dev, w.ctl.media, v, FreshHosts(), Asking(v), limit, Witness(n, t), t, n - 0x1_0000, scheds);
  }

  lemma AlongCounts(w: World, h: HostQueue, pattern: seq<bool>)
    requires WorldOk(w) && Along(w, h, 0, pattern)
    ensures |h.submitted| == |pattern| && h.timeouts == |pattern| - Answered(pattern)
  {
    hide Follows;
  }

  lemma WitnessCounts(n: nat, t: nat)
    requires n >= 0x1_0000 && 1 <= t <= n
    ensures Answered(Witness(n, t)) + t == n && (n - 0x1_0000) % 0x1_0000 == n % 0x1_0000
  {
    WitnessCount(n, t, n);
    assert Witness(n, t)[..n] == Witness(n, t);
  }
}
