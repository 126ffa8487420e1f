// Subscriptions and session joins of one client share one token bucket, however they interleave with
// everybody else's commands and whatever cascades those set off.
module HubRates {
  import opened Wrappers
  import opened Protocol
  import opened HubMachine
  import opened HubIndexes
  import R = RateLimit

  predicate IsJoin(cmd: Command, id: ClientId) {
    (cmd.Subscribe? || cmd.SessionJoin?) && cmd.id == id
  }

  // The times at which a run charges id, and how many of those charges it grants.
  function Charged(w: World, h: Hub, cmds: seq<Timed>, id: ClientId): seq<real> {
    if cmds == [] then []
    else
      var front, last := cmds[..|cmds| - 1], cmds[|cmds| - 1];
      Charged(w, h, front, id) + if IsJoin(last.cmd, id) && id in History(w, h, front).clients then [last.now] else []
  }

  function Granted(w: World, h: Hub, cmds: seq<Timed>, id: ClientId): nat {
    if cmds == [] then 0
    else
      var front, last := cmds[..|cmds| - 1], cmds[|cmds| - 1];
      Granted(w, h, front, id) + if IsJoin(last.cmd, id) && Charge(History(w, h, front), id, last.now).1 then 1 else 0
  }

  ghost predicate Reconnects(cmds: seq<Timed>, id: ClientId) {
    exists t <- cmds :: t.cmd.Connect? && t.cmd.id == id
  }

  // What a join, or any other command, makes of its client's bucket.
  function Paid(limiter: Option<R.Bucket>, pays: bool, now: real): Option<R.Bucket> {
    if limiter.Some? && pays then Some(R.TryAcquire(limiter.value, now).0) else limiter
  }

  // What a command does to a bucket: one acquisition if it is its owner's join, nothing otherwise.
  lemma StepCharges(w: World, h: Hub, cmd: Command, now: real, id: ClientId)
    requires id in h.clients && !(cmd.Connect? && cmd.id == id)
    ensures var after := Step(w, h, cmd, now);
            id in after.clients ==> after.clients[id].limiter == Paid(h.clients[id].limiter, IsJoin(cmd, id), now)
  {
    hide Run;
    var e := Begin(w, h, cmd, now);
    BeginCharges(w, h, cmd, now, id);
    RunShrinks(w, e.hub, e.todo);
  }

  lemma BeginCharges(w: World, h: Hub, cmd: Command, now: real, id: ClientId)
    requires id in h.clients && !(cmd.Connect? && cmd.id == id)
    ensures var after := Begin(w, h, cmd, now).hub;
            id in after.clients ==> after.clients[id].limiter == Paid(h.clients[id].limiter, IsJoin(cmd, id), now)
  {
    if cmd.Subscribe? {
      SubscribeCharges(h, cmd.id, cmd.channel, now, id);
    } else if cmd.SessionJoin? {
      SessionJoinCharges(h, cmd.id, cmd.session, now, id);
    } else if IsRelay(cmd) {
      RelayOnlySends(w, h, cmd, now);
    }
  }

  ghost predicate ChargesOnly(h: Hub, after: Hub, payer: ClientId, now: real, id: ClientId)
    requires id in h.clients
  {
    id in after.clients && after.clients[id].limiter == Paid(h.clients[id].limiter, payer == id, now)
  }

  lemma SubscribeCharges(h: Hub, payer: ClientId, channel: string, now: real, id: ClientId)
    requires id in h.clients
    ensures ChargesOnly(h, OnSubscribe(h, payer, channel, now).hub, payer, now, id)
  {
  }

  lemma SessionJoinCharges(h: Hub, payer: ClientId, session: string, now: real, id: ClientId)
    requires id in h.clients
    ensures ChargesOnly(h, OnSessionJoin(h, payer, session, now).hub, payer, now, id)
  {
    var (charged, allowed) := Charge(h, payer, now);
    assert ChargesOnly(h, charged, payer, now, id);
    if payer in charged.clients && allowed { EnrollKeepsBuckets(charged, payer, session, id); }
  }

  lemma EnrollKeepsBuckets(h: Hub, payer: ClientId, session: string, id: ClientId)
    requires payer in h.clients && id in h.clients
    ensures var after := Enroll(h, payer, session).hub; id in after.clients && after.clients[id].limiter == h.clients[id].limiter
  {
  }

  lemma StaysAway(w: World, h: Hub, cmd: Command, now: real, id: ClientId)
    requires id !in h.clients && !(cmd.Connect? && cmd.id == id)
    ensures id !in Step(w, h, cmd, now).clients && (IsJoin(cmd, id) ==> !Charge(h, id, now).1)
  {
    hide Run;
    ClientsOnlyConnect(w, h, cmd, now);
  }

  lemma CallsAppend(b: R.Bucket, times: seq<real>, now: real)
    ensures var (before, n) := R.Calls(b, times); var (after, granted) := R.TryAcquire(before, now);
            R.Calls(b, times + [now]) == (after, if granted then n + 1 else n)
  {
    assert (times + [now])[..|times|] == times;
  }

  // The bucket is that of the charges made so far, and its grants are the commands let through.
  lemma {:induction false} BucketFollows(w: World, h: Hub, cmds: seq<Timed>, id: ClientId, b: R.Bucket)
    requires id in h.clients && h.clients[id].limiter == Some(b) && !Reconnects(cmds, id)
    ensures var after := History(w, h, cmds); var (bucket, granted) := R.Calls(b, Charged(w, h, cmds, id));
            Granted(w, h, cmds, id) == granted && (id in after.clients ==> after.clients[id].limiter == Some(bucket))
  {
    hide Step;
    if cmds != [] {
      var front, last := cmds[..|cmds| - 1], cmds[|cmds| - 1];
      assert last in cmds && forall t <- front :: t in cmds;
      BucketFollows(w, h, front, id, b);
      var before := History(w, h, front);
      if id in before.clients {
        StepCharges(w, before, last.cmd, last.now, id);
        CallsAppend(b, Charged(w, h, front, id), last.now);
      } else {
        StaysAway(w, before, last.cmd, last.now, id);
        assert Charged(w, h, cmds, id) == Charged(w, h, front, id);
      }
      assert Charged(w, h, front, id) + [] == Charged(w, h, front, id);
    }
  }

  ghost predicate InOrder(cmds: seq<Timed>, from: real) {
    (forall t <- cmds :: from <= t.now) && forall i, j :: 0 <= i < j < |cmds| ==> cmds[i].now <= cmds[j].now
  }

  lemma NondecreasingAppend(times: seq<real>, now: real)
    requires R.Nondecreasing(times) && forall t <- times :: t <= now
    ensures R.Nondecreasing(times + [now])
  {
    forall i, j | 0 <= i < j < |times + [now]| ensures (times + [now])[i] <= (times + [now])[j] {
      assert times[i] in times;
    }
  }

  lemma {:induction false} ChargesInOrder(w: World, h: Hub, cmds: seq<Timed>, id: ClientId, from: real)
    requires InOrder(cmds, from)
    ensures R.Nondecreasing(Charged(w, h, cmds, id))
    ensures forall t <- Charged(w, h, cmds, id) :: from <= t && cmds != [] && cmds[0].now <= t <= cmds[|cmds| - 1].now
  {
    hide Step;
    if cmds != [] {
      var front, last := cmds[..|cmds| - 1], cmds[|cmds| - 1];
      assert last in cmds && forall t <- front :: t in cmds;
      ChargesInOrder(w, h, front, id, from);
      assert front != [] ==> front[0] == cmds[0] && front[|front| - 1] == cmds[|cmds| - 2];
      assert cmds[0].now <= last.now;
      var times := Charged(w, h, front, id);
      assert forall t <- times :: t <= last.now;
      NondecreasingAppend(times, last.now);
      assert times + [] == times;
    }
  }

  // --- From the start of the hub on ---

  // Every registered client has a bucket exactly when joins are limited, and it is one of that limit, with
  // its tokens in bounds and no charge of a later time than now.
  ghost predicate Metered(w: World, h: Hub, now: real) {
    forall id <- h.clients :: MeteredClient(w, h.clients[id].limiter, now)
  }

  ghost predicate MeteredClient(w: World, limiter: Option<R.Bucket>, now: real) {
    (limiter.Some? <==> w.joinRate.Some?) &&
    (limiter.Some? ==>
       var b := limiter.value;
       b.burst == w.joinRate.value.burst as real && b.perSec == w.joinRate.value.perSec && R.InBounds(b) && b.last <= now)
  }

  predicate RateIsSane(w: World) { w.joinRate.Some? ==> w.joinRate.value.perSec >= 0.0 }

  lemma PaidIsMetered(w: World, limiter: Option<R.Bucket>, pays: bool, before: real, now: real)
    requires RateIsSane(w) && MeteredClient(w, limiter, before) && before <= now
    ensures MeteredClient(w, Paid(limiter, pays, now), now)
  {
    if limiter.Some? && pays { R.OneCall(limiter.value, now); }
  }

  lemma StepKeepsMetered(w: World, h: Hub, cmd: Command, before: real, now: real)
    requires RateIsSane(w) && Metered(w, h, before) && before <= now
    ensures Metered(w, Step(w, h, cmd, now), now)
  {
    hide Step, MeteredClient;
    var after := Step(w, h, cmd, now);
    forall id <- after.clients ensures MeteredClient(w, after.clients[id].limiter, now) {
      if cmd.Connect? && cmd.id == id {
        NewcomerIsMetered(w, h, cmd, now);
      } else {
        ClientsOnlyConnect(w, h, cmd, now);
        StepCharges(w, h, cmd, now, id);
        PaidIsMetered(w, h.clients[id].limiter, IsJoin(cmd, id), before, now);
      }
    }
  }

  lemma NewcomerIsMetered(w: World, h: Hub, cmd: Command, now: real)
    requires cmd.Connect?
    ensures var after := Step(w, h, cmd, now);
            cmd.id in after.clients && MeteredClient(w, after.clients[cmd.id].limiter, now) &&
            (w.joinRate.Some? ==> after.clients[cmd.id].limiter.value.tokens == w.joinRate.value.burst as real)
  {
  }

  ghost predicate Clocked(cmds: seq<Timed>) {
    forall i, j :: 0 <= i < j < |cmds| ==> cmds[i].now <= cmds[j].now
  }

  lemma {:induction false} ReachableBuckets(w: World, cmds: seq<Timed>, now: real)
    requires RateIsSane(w) && Clocked(cmds) && forall t <- cmds :: t.now <= now
    ensures Metered(w, History(w, EMPTY_HUB, cmds), now)
  {
    hide Step, MeteredClient;
    if cmds != [] {
      var front, last := cmds[..|cmds| - 1], cmds[|cmds| - 1];
      assert last in cmds;
      forall t <- front ensures t.now <= last.now {
        var i :| 0 <= i < |front| && front[i] == t;
        assert cmds[i].now <= cmds[|cmds| - 1].now;
      }
      ReachableBuckets(w, front, last.now);
      StepKeepsMetered(w, History(w, EMPTY_HUB, front), last.cmd, last.now, last.now);
      MeteredLater(w, History(w, EMPTY_HUB, cmds), last.now, now);
    }
  }

  lemma MeteredLater(w: World, h: Hub, before: real, now: real)
    requires Metered(w, h, before) && before <= now
    ensures Metered(w, h, now)
  {
  }

  // --- The throttle ---

  lemma StretchOfKnown(w: World, h: Hub, stretch: seq<Timed>, id: ClientId, limit: R.Limit)
    requires id in h.clients && h.clients[id].limiter.Some? && !Reconnects(stretch, id) && stretch != []
    requires var b := h.clients[id].limiter.value;
             R.InBounds(b) && b.burst == limit.burst as real && b.perSec == limit.perSec >= 0.0 && InOrder(stretch, b.last)
    ensures R.WithinAllowance(limit, Granted(w, h, stretch, id), stretch[|stretch| - 1].now - stretch[0].now)
  {
    hide Step, Granted, Charged;
    var b := h.clients[id].limiter.value;
    var times := Charged(w, h, stretch, id);
    BucketFollows(w, h, stretch, id, b);
    ChargesInOrder(w, h, stretch, id, b.last);
    assert stretch[0].now <= stretch[|stretch| - 1].now;
    if times != [] {
      assert times[0] in times && times[|times| - 1] in times;
      R.WindowFrom(limit, b, times);
    }
    var long := stretch[|stretch| - 1].now - stretch[0].now;
    AllowanceGrows(limit, Granted(w, h, stretch, id), if times == [] then 0.0 else times[|times| - 1] - times[0], long);
  }

  lemma {:induction false} NothingForStrangers(w: World, h: Hub, cmds: seq<Timed>, id: ClientId)
    requires id !in h.clients && !Reconnects(cmds, id)
    ensures id !in History(w, h, cmds).clients && Granted(w, h, cmds, id) == 0
  {
    hide Step;
    if cmds != [] {
      var front, last := cmds[..|cmds| - 1], cmds[|cmds| - 1];
      assert last in cmds && forall t <- front :: t in cmds;
      NothingForStrangers(w, h, front, id);
      StaysAway(w, History(w, h, front), last.cmd, last.now, id);
    }
  }

  lemma {:induction false} HistorySplit(w: World, h: Hub, first: seq<Timed>, rest: seq<Timed>, id: ClientId)
    ensures History(w, h, first + rest) == History(w, History(w, h, first), rest)
    ensures Granted(w, h, first + rest, id) == Granted(w, h, first, id) + Granted(w, History(w, h, first), rest, id)
  {
    hide Step;
    if rest == [] {
      assert first + rest == first;
    } else {
      var front := rest[..|rest| - 1];
      assert (first + rest)[..|first + rest| - 1] == first + front;
      HistorySplit(w, h, first, front, id);
    }
  }

  // In any stretch of any run of the hub, one client's subscriptions and session joins that are let through
  // number at most the burst plus what the rate refills over the stretch - whether the client was there
  // before, connects within it, or is reaped in the middle.
  lemma JoinsAreThrottled(w: World, earlier: seq<Timed>, stretch: seq<Timed>, id: ClientId, limit: R.Limit)
    requires w.joinRate == Some(limit) && limit.perSec >= 0.0 && stretch != []
    requires IdsOnce(earlier + stretch) && Clocked(earlier + stretch)
    ensures R.WithinAllowance(limit, Granted(w, History(w, EMPTY_HUB, earlier), stretch, id), stretch[|stretch| - 1].now - stretch[0].now)
  {
    hide Step, Granted, R.WithinAllowance;
    var all := earlier + stretch;
    var h := History(w, EMPTY_HUB, earlier);
    StretchInOrder(earlier, stretch);
    if Reconnects(stretch, id) {
      var k :| 0 <= k < |stretch| && stretch[k].cmd.Connect? && stretch[k].cmd.id == id;
      ConnectsOnce(earlier, stretch, k, id);
      NothingForStrangers(w, EMPTY_HUB, earlier, id);
      ThrottledFromConnect(w, h, stretch, k, id, limit);
    } else if id in h.clients {
      ReachableBuckets(w, earlier, stretch[0].now);
      assert MeteredClient(w, h.clients[id].limiter, stretch[0].now);
      StretchOfKnown(w, h, stretch, id, limit);
    } else {
      NothingForStrangers(w, h, stretch, id);
      NothingIsAllowed(limit, stretch[|stretch| - 1].now - stretch[0].now);
    }
  }

  lemma NothingIsAllowed(limit: R.Limit, length: real)
    requires limit.perSec >= 0.0 && length >= 0.0
    ensures R.WithinAllowance(limit, 0, length)
  {
    assert limit.perSec * length >= 0.0;
  }

  lemma StretchInOrder(earlier: seq<Timed>, stretch: seq<Timed>)
    requires stretch != [] && Clocked(earlier + stretch)
    ensures Clocked(earlier) && (forall t <- earlier :: t.now <= stretch[0].now) && InOrder(stretch, stretch[0].now)
    ensures stretch[0].now <= stretch[|stretch| - 1].now
  {
    var all := earlier + stretch;
    assert forall i :: 0 <= i < |stretch| ==> all[|earlier| + i] == stretch[i];
    assert forall i :: 0 <= i < |earlier| ==> all[i] == earlier[i];
    forall i | 0 <= i < |stretch| ensures stretch[0].now <= stretch[i].now {
      assert all[|earlier|].now <= all[|earlier| + i].now || i == 0;
    }
  }

  lemma ConnectsOnce(earlier: seq<Timed>, stretch: seq<Timed>, k: nat, id: ClientId)
    requires IdsOnce(earlier + stretch) && k < |stretch| && stretch[k].cmd.Connect? && stretch[k].cmd.id == id
    ensures !Reconnects(earlier, id) && !Reconnects(stretch[..k], id) && !Reconnects(stretch[k + 1..], id)
  {
    var all := earlier + stretch;
    assert all[|earlier| + k] == stretch[k];
    assert forall i :: 0 <= i < |earlier| ==> all[i] == earlier[i];
    assert forall i :: 0 <= i < |stretch| ==> all[|earlier| + i] == stretch[i];
    assert forall i :: k < i < |stretch| ==> stretch[k + 1..][i - k - 1] == stretch[i];
  }

  // The stretch in which a client connects: nothing is granted before, and after it the bucket is full.
  lemma ThrottledFromConnect(w: World, h: Hub, stretch: seq<Timed>, k: nat, id: ClientId, limit: R.Limit)
    requires w.joinRate == Some(limit) && limit.perSec >= 0.0 && k < |stretch| && InOrder(stretch, stretch[0].now)
    requires stretch[k].cmd.Connect? && stretch[k].cmd.id == id && id !in h.clients
    requires !Reconnects(stretch[..k], id) && !Reconnects(stretch[k + 1..], id)
    ensures R.WithinAllowance(limit, Granted(w, h, stretch, id), stretch[|stretch| - 1].now - stretch[0].now)
  {
    hide Step, R.WithinAllowance, Reconnects, InOrder, History, Granted, R.InBounds;
    var first, connect, rest := stretch[..k], stretch[k], stretch[k + 1..];
    assert stretch == (first + [connect]) + rest;
    UpToConnect(w, h, first, connect, id, limit);
    HistorySplit(w, h, first + [connect], rest, id);
    var joined := History(w, h, first + [connect]);
    if rest == [] {
      assert stretch[0].now <= stretch[|stretch| - 1].now by { Lasts(stretch); }
      GrantedNothing(w, joined, id);
      NothingIsAllowed(limit, stretch[|stretch| - 1].now - stretch[0].now);
    } else {
      RestInOrder(stretch, k, joined.clients[id].limiter.value.last);
      StretchOfKnown(w, joined, rest, id, limit);
      Lengthen(limit, Granted(w, joined, rest, id), rest[|rest| - 1].now - rest[0].now, stretch[|stretch| - 1].now - stretch[0].now);
    }
  }

  lemma Lasts(stretch: seq<Timed>)
    requires stretch != [] && InOrder(stretch, stretch[0].now)
    ensures stretch[0].now <= stretch[|stretch| - 1].now
  {
  }

  lemma GrantedNothing(w: World, h: Hub, id: ClientId)
    ensures Granted(w, h, [], id) == 0
  {
  }

  // Up to and including the connection nothing is granted, and the bucket is then full.
  lemma UpToConnect(w: World, h: Hub, first: seq<Timed>, connect: Timed, id: ClientId, limit: R.Limit)
    requires w.joinRate == Some(limit) && limit.perSec >= 0.0 && id !in h.clients && !Reconnects(first, id)
    requires connect.cmd.Connect? && connect.cmd.id == id
    ensures var joined := History(w, h, first + [connect]);
            Granted(w, h, first + [connect], id) == 0 && id in joined.clients &&
            joined.clients[id].limiter.Some? &&
            var b := joined.clients[id].limiter.value;
            R.InBounds(b) && b.burst == limit.burst as real && b.perSec == limit.perSec && b.last <= connect.now
  {
    hide Step;
    NothingForStrangers(w, h, first, id);
    HistorySplit(w, h, first, [connect], id);
    var mid := History(w, h, first);
    assert [connect][..0] == [] && History(w, mid, []) == mid;
    NewcomerIsMetered(w, mid, connect.cmd, connect.now);
  }

  lemma Lengthen(limit: R.Limit, granted: nat, short: real, long: real)
    requires limit.perSec >= 0.0 && 0.0 <= short <= long && R.WithinAllowance(limit, granted, short)
    ensures R.WithinAllowance(limit, granted, long)
  {
    AllowanceGrows(limit, granted, short, long);
  }

  lemma RestInOrder(stretch: seq<Timed>, k: nat, from: real)
    requires k + 1 < |stretch| && InOrder(stretch, stretch[0].now) && from <= stretch[k].now
    ensures var rest := stretch[k + 1..];
            InOrder(rest, from) && stretch[0].now <= rest[0].now <= rest[|rest| - 1].now == stretch[|stretch| - 1].now
  {
    var rest := stretch[k + 1..];
    assert forall i :: 0 <= i < |rest| ==> rest[i] == stretch[k + 1 + i] && stretch[k].now <= stretch[k + 1 + i].now;
    assert stretch[0].now <= stretch[k + 1].now;
  }

  // As many joins as the burst, the first after connecting, are all let through.
  lemma FirstJoinsPass(w: World, h: Hub, connect: Timed, rest: seq<Timed>, id: ClientId, limit: R.Limit)
    requires w.joinRate == Some(limit) && limit.perSec >= 0.0 && connect.cmd.Connect? && connect.cmd.id == id && !Reconnects(rest, id)
    ensures var joined := History(w, h, [connect]);
            |Charged(w, joined, rest, id)| <= limit.burst ==> Granted(w, joined, rest, id) == |Charged(w, joined, rest, id)|
  {
    hide Step;
    assert [connect][..0] == [] && History(w, h, []) == h;
    NewcomerIsFull(w, h, connect.cmd, connect.now, limit);
    var joined := History(w, h, [connect]);
    BucketFollows(w, joined, rest, id, R.Full(limit, connect.now));
    if |Charged(w, joined, rest, id)| <= limit.burst { R.FirstBurstIsGranted(limit, connect.now, Charged(w, joined, rest, id)); }
  }

  lemma NewcomerIsFull(w: World, h: Hub, cmd: Command, now: real, limit: R.Limit)
    requires cmd.Connect? && w.joinRate == Some(limit)
    ensures var after := Step(w, h, cmd, now); cmd.id in after.clients && after.clients[cmd.id].limiter == Some(R.Full(limit, now))
  {
  }

  // Without a limit every join of a registered client is let through.
  lemma UnlimitedJoinsPass(w: World, cmds: seq<Timed>, id: ClientId, now: real)
    requires w.joinRate == None && Clocked(cmds) && id in History(w, EMPTY_HUB, cmds).clients
    ensures Charge(History(w, EMPTY_HUB, cmds), id, now).1
  {
    hide History;
    var last := if cmds == [] then now else cmds[|cmds| - 1].now;
    forall t <- cmds ensures t.now <= last {
      var i :| 0 <= i < |cmds| && cmds[i] == t;
      assert i < |cmds| - 1 ==> cmds[i].now <= cmds[|cmds| - 1].now;
    }
    ReachableBuckets(w, cmds, last);
    assert MeteredClient(w, History(w, EMPTY_HUB, cmds).clients[id].limiter, last);
  }

  lemma AllowanceGrows(limit: R.Limit, granted: nat, short: real, long: real)
    requires limit.perSec >= 0.0 && 0.0 <= short <= long
    requires granted == 0 || R.WithinAllowance(limit, granted, short)
    ensures R.WithinAllowance(limit, granted, long)
  {
    assert limit.perSec * short <= limit.perSec * long;
    assert limit.perSec * long >= 0.0;
  }
}
