/** A message's life on the broker (internal/broker/subscriber.go:63-155,
    internal/broker/broker.go:24-28, 78-100). */
module Delivery {

  const MAX_DELIVER: nat := 6
  const DEFAULT_BACKOFF: seq<int> := [1_000_000_000, 5_000_000_000, 15_000_000_000]

  function ScheduleOf(backoff: seq<int>): (s: seq<int>)
    ensures s != []
  {
    if backoff == [] then DEFAULT_BACKOFF else backoff
  }

  /** backoffFor: the n-th failure waits the n-th delay, the last delay repeats for
      ever, and an unreadable count waits the first. */
  function BackoffFor(backoff: seq<int>, delivered: nat): (d: int)
    ensures d in ScheduleOf(backoff)
    ensures delivered == 0 ==> d == ScheduleOf(backoff)[0]
    ensures 1 <= delivered <= |ScheduleOf(backoff)| ==> d == ScheduleOf(backoff)[delivered - 1]
    ensures delivered >= |ScheduleOf(backoff)| ==> d == ScheduleOf(backoff)[|ScheduleOf(backoff)| - 1]
  {
    var schedule := ScheduleOf(backoff);
    var idx := if delivered == 0 then 0 else delivered - 1;
    schedule[if idx >= |schedule| then |schedule| - 1 else idx]
  }

  lemma BackoffGrows(backoff: seq<int>, m: nat, n: nat)
    requires forall i, j | 0 <= i < j < |ScheduleOf(backoff)| :: ScheduleOf(backoff)[i] <= ScheduleOf(backoff)[j]
    requires m <= n
    ensures BackoffFor(backoff, m) <= BackoffFor(backoff, n)
  {
  }

  /** What happens around one delivery: the handler's verdict, whether the server
      hears the ack or term before its ack wait is over, whether the message's
      metadata can be read, and whether a dead-letter publish would work. */
  datatype Attempt = Attempt(handled: bool, heard: bool, metadata: bool, deadLetterOK: bool)

  datatype Fate =
    | InFlight
    | Acked
    | DeadLettered
    | Lost             // given up on, but no dead letter ever went out
    | Abandoned        // nak'd on the last delivery the server will make
    | Unheard          // handled on that delivery, but the ack never arrived

  class Message {
    const decodes: bool
    var delivered: nat
    var handlerCalls: nat
    var deadLetters: nat
    var fate: Fate

    constructor (decodes: bool)
      ensures this.decodes == decodes && delivered == 0 && handlerCalls == 0 && deadLetters == 0 && fate == InFlight
    {
      this.decodes := decodes;
      delivered, handlerCalls, deadLetters := 0, 0, 0;
      fate := InFlight;
    }

    /** One run of the consume callback, and what the server makes of it. */
    method Deliver(a: Attempt)
      requires fate == InFlight && delivered < MAX_DELIVER
      modifies this
      ensures delivered == old(delivered) + 1
      ensures handlerCalls == old(handlerCalls) + if decodes then 1 else 0
      ensures deadLetters == old(deadLetters) + if DeadLetters(decodes, a, delivered) then 1 else 0
      ensures fate == FateOf(decodes, a, delivered, deadLetters)
    {
      delivered := delivered + 1;
      if !decodes {
        if a.deadLetterOK {
          deadLetters := deadLetters + 1;
        }
        if a.heard || delivered >= MAX_DELIVER {
          fate := if deadLetters > 0 then DeadLettered else Lost;
        }
        return;
      }
      handlerCalls := handlerCalls + 1;
      if a.handled {
        if a.heard {
          fate := Acked;
        } else if delivered >= MAX_DELIVER {
          fate := Unheard;
        }
        return;
      }
      if a.metadata && delivered >= MAX_DELIVER {
        if a.deadLetterOK {
          deadLetters := deadLetters + 1;
        }
        fate := if deadLetters > 0 then DeadLettered else Lost;
        return;
      }
      if delivered >= MAX_DELIVER {
        fate := Abandoned;
      }
    }
  }

  /** This delivery puts the message on the dead-letter subject. */
  predicate DeadLetters(decodes: bool, a: Attempt, delivered: nat) {
    a.deadLetterOK && (decodes ==> !a.handled && a.metadata && delivered >= MAX_DELIVER)
  }

  /** The server will not deliver again: it heard an ack, or a term. */
  predicate Closes(decodes: bool, a: Attempt) {
    a.heard && (decodes ==> a.handled)
  }

  function FateOf(decodes: bool, a: Attempt, delivered: nat, deadLetters: nat): Fate {
    if decodes && Closes(decodes, a) then Acked
    else if delivered < MAX_DELIVER && !Closes(decodes, a) then InFlight
    else if decodes && a.handled then Unheard
    else if decodes && !a.metadata then Abandoned
    else if deadLetters > 0 then DeadLettered
    else Lost
  }

  /** How many deliveries are made, counting from the n-th. */
  function Deliveries(decodes: bool, attempts: nat -> Attempt, n: nat): (r: nat)
    requires n < MAX_DELIVER
    ensures n < r <= MAX_DELIVER
    decreases MAX_DELIVER - n
  {
    if n + 1 == MAX_DELIVER || Closes(decodes, attempts(n)) then n + 1 else Deliveries(decodes, attempts, n + 1)
  }

  /** Up to the first one that closes the message, or the last there is. */
  lemma {:induction false} DeliveriesMeaning(decodes: bool, attempts: nat -> Attempt, n: nat)
    requires n < MAX_DELIVER
    ensures var r := Deliveries(decodes, attempts, n);
            && (r < MAX_DELIVER ==> Closes(decodes, attempts(r - 1)))
            && forall i: nat | n <= i < r - 1 :: !Closes(decodes, attempts(i))
    decreases MAX_DELIVER - n
  {
    if n + 1 == MAX_DELIVER || Closes(decodes, attempts(n)) {
    } else {
      DeliveriesMeaning(decodes, attempts, n + 1);
    }
  }

  /** The whole life of a message, for every pattern of results: it is delivered until
      the server hears an ack or a term, at most six times, and ends in exactly one
      fate.  It is acked iff the handler succeeded on the last delivery and the server
      heard so; a message handled earlier without being heard comes again. */
  method Live(decodes: bool, attempts: nat -> Attempt) returns (m: Message)
    ensures fresh(m) && m.fate != InFlight && m.delivered == Deliveries(decodes, attempts, 0)
    ensures m.handlerCalls == if decodes then m.delivered else 0
    ensures m.fate == Acked <==> decodes && Closes(decodes, attempts(m.delivered - 1))
    ensures decodes && m.fate != Acked ==>
              && m.delivered == MAX_DELIVER
              && m.fate == (var a := attempts(MAX_DELIVER - 1);
                            if a.handled then Unheard else if !a.metadata then Abandoned
                            else if a.deadLetterOK then DeadLettered else Lost)
    ensures !decodes ==> m.fate == if SomeDeadLetter(attempts, m.delivered) then DeadLettered else Lost
  {
    m := DeliverAll(decodes, attempts);
    DeliveriesMeaning(decodes, attempts, 0);
    if decodes {
      LastLetter(attempts, m.delivered);
    } else {
      PoisonLetters(attempts, m.delivered);
    }
  }

  /** Delivering until the message is out of flight. */
  method DeliverAll(decodes: bool, attempts: nat -> Attempt) returns (m: Message)
    ensures fresh(m) && m.fate != InFlight && m.delivered == Deliveries(decodes, attempts, 0)
    ensures m.handlerCalls == if decodes then m.delivered else 0
    ensures m.deadLetters == Letters(decodes, attempts, m.delivered)
    ensures m.fate == FateOf(decodes, attempts(m.delivered - 1), m.delivered, m.deadLetters)
  {
    m := new Message(decodes);
    while true
      invariant fresh(m) && m.decodes == decodes && m.fate == InFlight && m.delivered < MAX_DELIVER
      invariant m.handlerCalls == if decodes then m.delivered else 0
      invariant m.deadLetters == Letters(decodes, attempts, m.delivered)
      invariant Deliveries(decodes, attempts, 0) == Deliveries(decodes, attempts, m.delivered)
      decreases MAX_DELIVER - m.delivered
    {
      var n := m.delivered;
      m.Deliver(attempts(n));
      FateInFlight(decodes, attempts, n, m.deadLetters);
      if m.fate != InFlight {
        return;
      }
    }
  }

  /** A message stays in flight iff it will be delivered again. */
  lemma FateInFlight(decodes: bool, attempts: nat -> Attempt, n: nat, deadLetters: nat)
    requires n < MAX_DELIVER
    ensures FateOf(decodes, attempts(n), n + 1, deadLetters) == InFlight <==>
            n + 1 < MAX_DELIVER && !Closes(decodes, attempts(n))
    ensures Deliveries(decodes, attempts, n)
         == if n + 1 < MAX_DELIVER && !Closes(decodes, attempts(n)) then Deliveries(decodes, attempts, n + 1) else n + 1
  {
  }

  /** Dead letters sent over the first n deliveries. */
  function Letters(decodes: bool, attempts: nat -> Attempt, n: nat): nat {
    if n == 0 then 0
    else Letters(decodes, attempts, n - 1) + if DeadLetters(decodes, attempts(n - 1), n) then 1 else 0
  }

  /** A message that decodes is dead-lettered by its last delivery or not at all. */
  lemma {:induction false} LastLetter(attempts: nat -> Attempt, n: nat)
    requires n <= MAX_DELIVER
    ensures Letters(true, attempts, n) > 0 <==> n == MAX_DELIVER && DeadLetters(true, attempts(n - 1), n)
  {
    if n == 0 {
    } else {
      LastLetter(attempts, n - 1);
    }
  }

  predicate SomeDeadLetter(attempts: nat -> Attempt, n: nat) {
    exists i: nat | i < n :: attempts(i).deadLetterOK
  }

  lemma {:induction false} PoisonLetters(attempts: nat -> Attempt, n: nat)
    ensures Letters(false, attempts, n) > 0 <==> SomeDeadLetter(attempts, n)
  {
    if n == 0 {
    } else {
      PoisonLetters(attempts, n - 1);
      if attempts(n - 1).deadLetterOK {
        assert SomeDeadLetter(attempts, n);
      }
    }
  }
}
