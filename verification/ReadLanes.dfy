/** scheduler.ReadLanes: one lane's slots, its queue, and the race between a hand-off and a cancellation. Tickets are
    numbered in the order in which Acquire takes the mutex. */
module ReadLanes {
  import opened Wrappers

  /** Waiting in the queue; handed a slot but not yet awake; holding a lease; done. */
  datatype Status = Waiting | Handed | Held | Over

  /** `queueLimit` None: unbounded. `grants` lists the tickets in the order in which they got their slot. */
  datatype Lane = Lane(limit: nat, queueLimit: Option<nat>, inFlight: nat, waiters: seq<nat>, tickets: seq<Status>, grants: seq<nat>)

  datatype Entered = Leased | Queued | QueueFull

  function New(limit: nat, queueLimit: Option<nat>): Lane {
    Lane(limit, queueLimit, 0, [], [], [])
  }

  /** The first critical section of Acquire. */
  function Enter(l: Lane): (Lane, Entered) {
    var ticket := |l.tickets|;
    if l.waiters == [] && l.inFlight < l.limit then
      (l.(inFlight := l.inFlight + 1, tickets := l.tickets + [Held], grants := l.grants + [ticket]), Leased)
    else if l.queueLimit.Some? && |l.waiters| >= l.queueLimit.value then (l.(tickets := l.tickets + [Over]), QueueFull)
    else (l.(waiters := l.waiters + [ticket], tickets := l.tickets + [Waiting]), Queued)
  }

  function Remove(waiters: seq<nat>, ticket: nat): seq<nat> {
    if waiters == [] then []
    else if waiters[0] == ticket then waiters[1..]
    else [waiters[0]] + Remove(waiters[1..], ticket)
  }

  /** The second critical section, after the context ended: a ticket that already owns a slot keeps it. */
  function Abandon(l: Lane, ticket: nat): (Lane, bool) {
    if ticket >= |l.tickets| then (l, false)
    else match l.tickets[ticket]
      case Handed => (l.(tickets := l.tickets[ticket := Held]), true)
      case Waiting => (l.(waiters := Remove(l.waiters, ticket), tickets := l.tickets[ticket := Over]), false)
      case _ => (l, false)
  }

  /** The waiter sees its closed channel. */
  function Wake(l: Lane, ticket: nat): Lane {
    if ticket < |l.tickets| && l.tickets[ticket] == Handed then l.(tickets := l.tickets[ticket := Held]) else l
  }

  /** Lease.Release, at most once per lease: the slot goes to the first waiter, or back to the lane. */
  function GiveBack(l: Lane, ticket: nat): Lane {
    if ticket >= |l.tickets| || l.tickets[ticket] != Held || l.inFlight == 0 then l
    else
      var over := l.tickets[ticket := Over];
      if l.waiters == [] then l.(inFlight := l.inFlight - 1, tickets := over)
      else
        var next := l.waiters[0];
        if next >= |over| then l
        else l.(waiters := l.waiters[1..], tickets := over[next := Handed], grants := l.grants + [next])
  }

  datatype Action = DoEnter | DoAbandon(ticket: nat) | DoWake(ticket: nat) | DoRelease(ticket: nat)

  function Next(l: Lane, a: Action): Lane {
    match a
    case DoEnter => Enter(l).0
    case DoAbandon(ticket) => Abandon(l, ticket).0
    case DoWake(ticket) => Wake(l, ticket)
    case DoRelease(ticket) => GiveBack(l, ticket)
  }

  function After(l: Lane, actions: seq<Action>): Lane {
    if actions == [] then l else Next(After(l, actions[..|actions| - 1]), actions[|actions| - 1])
  }

  // ---------------------------------------------------------------- invariant

  predicate Owns(s: Status) {
    s == Handed || s == Held
  }

  function Owners(tickets: seq<Status>): nat {
    if tickets == [] then 0 else Owners(tickets[..|tickets| - 1]) + if Owns(tickets[|tickets| - 1]) then 1 else 0
  }

  predicate Ascending(s: seq<nat>) {
    forall i, j :: 0 <= i < j < |s| ==> s[i] < s[j]
  }

  /** Slots went out in arrival order, and whoever waits came after everybody who got one. */
  predicate InOrder(waiters: seq<nat>, grants: seq<nat>) {
    Ascending(waiters) && Ascending(grants)
    && (forall i, k :: 0 <= i < |grants| && 0 <= k < |waiters| ==> grants[i] < waiters[k])
  }

  /** The queue holds exactly the waiting tickets. */
  ghost predicate Listed(waiters: seq<nat>, tickets: seq<Status>) {
    && (forall i :: 0 <= i < |waiters| ==> waiters[i] < |tickets| && tickets[waiters[i]] == Waiting)
    && (forall t :: 0 <= t < |tickets| && tickets[t] == Waiting ==> t in waiters)
  }

  ghost predicate Inv(l: Lane) {
    && l.inFlight == Owners(l.tickets) <= l.limit
    && Listed(l.waiters, l.tickets) && InOrder(l.waiters, l.grants)
    && (forall i :: 0 <= i < |l.grants| ==> l.grants[i] < |l.tickets|)
    && (l.waiters != [] ==> l.inFlight == l.limit)
    && (l.queueLimit.Some? ==> |l.waiters| <= l.queueLimit.value)
  }

  lemma OrderAtHandOff(waiters: seq<nat>, grants: seq<nat>)
    requires waiters != [] && InOrder(waiters, grants)
    ensures InOrder(waiters[1..], grants + [waiters[0]])
  {
  }

  lemma ListedAtHandOff(waiters: seq<nat>, tickets: seq<Status>, holder: nat)
    requires waiters != [] && Ascending(waiters) && Listed(waiters, tickets) && holder < |tickets| && tickets[holder] == Held
    ensures Listed(waiters[1..], tickets[holder := Over][waiters[0] := Handed])
  {
    assert waiters == [waiters[0]] + waiters[1..];
  }

  lemma {:induction false} OwnersUpdate(tickets: seq<Status>, t: nat, s: Status)
    requires t < |tickets|
    ensures Owners(tickets[t := s]) + (if Owns(tickets[t]) then 1 else 0) == Owners(tickets) + (if Owns(s) then 1 else 0)
  {
    var last := |tickets| - 1;
    var after := tickets[t := s];
    if t < last {
      OwnersUpdate(tickets[..last], t, s);
      assert after[..last] == tickets[..last][t := s];
    } else {
      assert after[..last] == tickets[..last];
    }
  }

  lemma OwnersAppend(tickets: seq<Status>, s: Status)
    ensures Owners(tickets + [s]) == Owners(tickets) + if Owns(s) then 1 else 0
  {
    assert (tickets + [s])[..|tickets|] == tickets;
  }

  lemma EnterKeeps(l: Lane)
    requires Inv(l)
    ensures Inv(Enter(l).0)
  {
    hide Owners;
    OwnersAppend(l.tickets, Held);
    OwnersAppend(l.tickets, Waiting);
    OwnersAppend(l.tickets, Over);
  }

  lemma {:induction false} RemoveIsCut(waiters: seq<nat>, i: nat)
    requires i < |waiters| && waiters[i] !in waiters[..i]
    ensures Remove(waiters, waiters[i]) == waiters[..i] + waiters[i + 1..]
  {
    if i > 0 {
      var rest := waiters[1..];
      assert rest[..i - 1] == waiters[1..i];
      RemoveIsCut(rest, i - 1);
      assert waiters[..i] == [waiters[0]] + waiters[1..i];
    }
  }

  lemma CutFacts(waiters: seq<nat>, i: nat)
    requires Ascending(waiters) && i < |waiters|
    ensures var cut := waiters[..i] + waiters[i + 1..];
            && Ascending(cut) && |cut| == |waiters| - 1
            && (forall k :: 0 <= k < |cut| ==> cut[k] in waiters && cut[k] != waiters[i])
            && (forall k :: 0 <= k < |waiters| && k != i ==> waiters[k] in cut)
  {
    var cut := waiters[..i] + waiters[i + 1..];
    forall k | 0 <= k < |waiters| && k != i ensures waiters[k] in cut {
      assert if k < i then cut[k] == waiters[k] else cut[k - 1] == waiters[k];
    }
  }

  /** Taking one waiter out leaves the others in order. */
  lemma RemoveKeeps(waiters: seq<nat>, ticket: nat)
    requires Ascending(waiters) && ticket in waiters
    ensures Ascending(Remove(waiters, ticket)) && |Remove(waiters, ticket)| == |waiters| - 1
    ensures forall k :: 0 <= k < |waiters| - 1 ==> Remove(waiters, ticket)[k] in waiters && Remove(waiters, ticket)[k] != ticket
    ensures forall t :: t in waiters && t != ticket ==> t in Remove(waiters, ticket)
  {
    hide Remove;
    var i :| 0 <= i < |waiters| && waiters[i] == ticket;
    RemoveIsCut(waiters, i);
    CutFacts(waiters, i);
  }

  lemma AbandonKeeps(l: Lane, ticket: nat)
    requires Inv(l)
    ensures Inv(Abandon(l, ticket).0)
  {
    hide Owners, Remove;
    if ticket < |l.tickets| {
      OwnersUpdate(l.tickets, ticket, Held);
      OwnersUpdate(l.tickets, ticket, Over);
      if l.tickets[ticket] == Waiting {
        RemoveKeeps(l.waiters, ticket);
      }
    }
  }

  lemma WakeKeeps(l: Lane, ticket: nat)
    requires Inv(l)
    ensures Inv(Wake(l, ticket))
  {
    hide Owners;
    if ticket < |l.tickets| {
      OwnersUpdate(l.tickets, ticket, Held);
    }
  }

  lemma ReleaseKeeps(l: Lane, ticket: nat)
    requires Inv(l)
    ensures Inv(GiveBack(l, ticket))
  {
    hide Owners;
    if ticket < |l.tickets| && l.tickets[ticket] == Held && l.inFlight > 0 {
      OwnersUpdate(l.tickets, ticket, Over);
      if l.waiters != [] {
        var next := l.waiters[0];
        OwnersUpdate(l.tickets[ticket := Over], next, Handed);
        OrderAtHandOff(l.waiters, l.grants);
        ListedAtHandOff(l.waiters, l.tickets, ticket);
        hide Listed, InOrder;
      }
    }
  }

  lemma {:induction false} AfterInv(limit: nat, queueLimit: Option<nat>, actions: seq<Action>)
    ensures Inv(After(New(limit, queueLimit), actions))
  {
    if actions != [] {
      var init, a := actions[..|actions| - 1], actions[|actions| - 1];
      AfterInv(limit, queueLimit, init);
      var l := After(New(limit, queueLimit), init);
      match a
      case DoEnter => EnterKeeps(l);
      case DoAbandon(ticket) => AbandonKeeps(l, ticket);
      case DoWake(ticket) => WakeKeeps(l, ticket);
      case DoRelease(ticket) => ReleaseKeeps(l, ticket);
    }
  }

  // ---------------------------------------------------------------- theorems

  /** In every interleaving: in-flight counts exactly the slots owned, handed-off ones included, and stays within the
      limit; nobody waits while a slot is free. */
  lemma SlotsAreConserved(limit: nat, queueLimit: Option<nat>, actions: seq<Action>)
    ensures var l := After(New(limit, queueLimit), actions);
            && l.inFlight == Owners(l.tickets) <= limit
            && (l.waiters != [] ==> l.inFlight == limit)
            && (queueLimit.Some? ==> |l.waiters| <= queueLimit.value)
  {
    AfterInv(limit, queueLimit, actions);
    LimitsStay(limit, queueLimit, actions);
  }

  lemma {:induction false} LimitsStay(limit: nat, queueLimit: Option<nat>, actions: seq<Action>)
    ensures var l := After(New(limit, queueLimit), actions); l.limit == limit && l.queueLimit == queueLimit
  {
    if actions != [] {
      LimitsStay(limit, queueLimit, actions[..|actions| - 1]);
    }
  }

  /** First come, first served: slots are given in the order of arrival, and whoever has a slot came before everybody who
      waits. */
  lemma ServedInOrder(limit: nat, queueLimit: Option<nat>, actions: seq<Action>, i: nat, j: nat)
    requires i < j < |After(New(limit, queueLimit), actions).grants|
    ensures After(New(limit, queueLimit), actions).grants[i] < After(New(limit, queueLimit), actions).grants[j]
    ensures forall k :: 0 <= k < |After(New(limit, queueLimit), actions).waiters| ==>
              After(New(limit, queueLimit), actions).grants[j] < After(New(limit, queueLimit), actions).waiters[k]
  {
    AfterInv(limit, queueLimit, actions);
  }

  /** The first waiter's cancellation loses the race against a release: the waiter has a lease after all. */
  lemma ReleaseThenCancel(l: Lane, holder: nat)
    requires Inv(l) && l.waiters != [] && holder < |l.tickets| && l.tickets[holder] == Held
    ensures var w := l.waiters[0];
            var (after, leased) := Abandon(GiveBack(l, holder), w);
            leased && after.tickets[w] == Held && after.inFlight == l.inFlight && after.waiters == l.waiters[1..]
  {
    hide Owners;
    OwnersPositive(l.tickets, holder);
  }

  /** It wins: the slot goes to the next in line, or back to the lane when nobody else waits. */
  lemma CancelThenRelease(l: Lane, holder: nat)
    requires Inv(l) && l.waiters != [] && holder < |l.tickets| && l.tickets[holder] == Held
    ensures var (canceled, leased) := Abandon(l, l.waiters[0]);
            var after := GiveBack(canceled, holder);
            && !leased && canceled.waiters == l.waiters[1..]
            && after.inFlight == (if |l.waiters| == 1 then l.inFlight - 1 else l.inFlight)
            && after.waiters == (if |l.waiters| == 1 then [] else l.waiters[2..])
            && (|l.waiters| > 1 ==> after.tickets[l.waiters[1]] == Handed)
  {
    hide Owners;
    OwnersPositive(l.tickets, holder);
    if |l.waiters| > 1 {
      assert l.waiters[1..][0] == l.waiters[1] && l.waiters[1..][1..] == l.waiters[2..];
    }
  }

  lemma {:induction false} OwnersPositive(tickets: seq<Status>, t: nat)
    requires t < |tickets| && Owns(tickets[t])
    ensures Owners(tickets) > 0
  {
    if t < |tickets| - 1 {
      OwnersPositive(tickets[..|tickets| - 1], t);
    }
  }

  // ---------------------------------------------------------------- the object

  class State {
    const limit: nat
    const queueLimit: Option<nat>
    var inFlight: nat
    var waiters: seq<nat>
    var tickets: seq<Status>
    ghost var grants: seq<nat>

    ghost function View(): Lane
      reads this
    {
      Lane(limit, queueLimit, inFlight, waiters, tickets, grants)
    }

    constructor (limit: nat, queueLimit: Option<nat>)
      ensures View() == New(limit, queueLimit) && Inv(View())
    {
      this.limit, this.queueLimit := limit, queueLimit;
      inFlight, waiters, tickets, grants := 0, [], [], [];
    }

    method Acquire() returns (ticket: nat, entered: Entered)
      requires Inv(View())
      modifies this
      ensures Inv(View()) && (View(), entered) == Enter(old(View())) && ticket == |old(tickets)|
    {
      EnterKeeps(View());
      ticket := |tickets|;
      if |waiters| == 0 && inFlight < limit {
        inFlight := inFlight + 1;
        tickets := tickets + [Held];
        grants := grants + [ticket];
        return ticket, Leased;
      }
      if queueLimit.Some? && |waiters| >= queueLimit.value {
        tickets := tickets + [Over];
        return ticket, QueueFull;
      }
      waiters := waiters + [ticket];
      tickets := tickets + [Waiting];
      return ticket, Queued;
    }

    /** The branch of Acquire that the ended context takes. */
    method Cancel(ticket: nat) returns (leased: bool)
      requires Inv(View()) && ticket < |tickets|
      modifies this
      ensures Inv(View()) && (View(), leased) == Abandon(old(View()), ticket)
    {
      hide Owners, Remove, Ascending;
      AbandonKeeps(View(), ticket);
      if tickets[ticket] == Handed {
        tickets := tickets[ticket := Held];
        return true;
      }
      if tickets[ticket] == Waiting {
        var i := 0;
        while waiters[i] != ticket
          invariant 0 <= i < |waiters| && ticket !in waiters[..i] && ticket in waiters
          decreases |waiters| - i
        {
          i := i + 1;
        }
        RemoveIsCut(waiters, i);
        waiters := waiters[..i] + waiters[i + 1..];
        tickets := tickets[ticket := Over];
      }
      return false;
    }

    method Release(ticket: nat)
      requires Inv(View()) && ticket < |tickets|
      modifies this
      ensures Inv(View()) && View() == GiveBack(old(View()), ticket)
    {
      ReleaseKeeps(View(), ticket);
      if tickets[ticket] != Held || inFlight == 0 { return; }
      tickets := tickets[ticket := Over];
      if |waiters| == 0 {
        inFlight := inFlight - 1;
        return;
      }
      var next := waiters[0];
      assert next in waiters;
      waiters := waiters[1..];
      tickets := tickets[next := Handed];
      grants := grants + [next];
    }
  }
}
