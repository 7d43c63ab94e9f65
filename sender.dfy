/**
 * The outbound delivery loop: a bounded queue of messages drained one at a time under a global
 * budget of 30 sends per second and a spacing of 1000 ms between successful sends to one chat.
 * Time is a parameter; the once-a-second replenisher is the `Tick` method. Each step of the
 * loop is one segment between two await points, specified by a function on the state.
 */
module Sender {
  import opened Wrappers

  datatype Button = Button(text: string, data: string)

  /** An inline keyboard: rows of buttons, each carrying callback data. */
  datatype Markup = InlineKeyboard(rows: seq<seq<Button>>)

  datatype Message = Message(chat: int, text: string, markup: Option<Markup>)

  /** `From<(i64, S)>`: a plain text message. */
  function FromText(chat: int, text: string): (m: Message)
    ensures m.chat == chat && m.text == text && m.markup.None?
  {
    Message(chat, text, None)
  }

  /** `From<(i64, S, ReplyMarkup)>`: the markup travels unchanged. */
  function FromTextWithMarkup(chat: int, text: string, markup: Markup): (m: Message)
    ensures m.chat == chat && m.text == text && m.markup == Some(markup)
  {
    Message(chat, text, Some(markup))
  }

  const CAPACITY: nat := 1024
  const LIMIT_RATE_PER_ALL: int := 30
  const LIMIT_RATE_PER_CHAT: int := 1000

  /**
   * Where the consumer loop is suspended, and the message it holds. The executor is
   * single-threaded, so producers and the replenisher run only while the loop awaits:
   * in `recv`, in the 100 ms budget poll, in the Telegram call, in the push-back `send`, or
   * in the sleep out of the chat's spacing window.
   */
  datatype Phase =
    | Receiving               // awaiting `recv`; no message in hand
    | Budget(m: Message)      // received `m`, polling for a token
    | Transport(m: Message)   // token spent, the Telegram call for `m` in flight
    | PushBack(m: Message)    // awaiting room on its own channel to put `m` back
    | Spacing(m: Message)     // token spent, sleeping out the rest of the chat's window

  /** What one segment of the consumer loop did. */
  datatype StepResult =
    | Idle       // nothing to receive
    | Throttled  // no token
    | Started    // token spent and the chat free: the Telegram call is in flight
    | Deferred   // the chat is held back: pushed back to the tail
    | Sent       // the Telegram call succeeded
    | Failed     // the Telegram call failed: pushed back to the tail
    | Requeued   // a waiting push-back found room
    | Blocked    // a push-back found the channel full and waits
    | Waiting    // the chat's spacing window has not passed yet: the sleep goes on

  /**
   * Whether the per-chat spacing holds `chat` back at time `now`: a previous success is
   * recorded and less than 1000 ms have passed since. A recorded time later than `now` makes
   * the elapsed-time computation fail, and the message goes out.
   */
  predicate TooSoon(timeouts: map<int, int>, chat: int, now: int)
    ensures chat !in timeouts ==> !TooSoon(timeouts, chat, now)
    ensures chat in timeouts && now < timeouts[chat] ==> !TooSoon(timeouts, chat, now)
    ensures chat in timeouts && timeouts[chat] <= now ==>
      (TooSoon(timeouts, chat, now) <==> now < timeouts[chat] + LIMIT_RATE_PER_CHAT)
  {
    chat in timeouts && timeouts[chat] <= now && now - timeouts[chat] < LIMIT_RATE_PER_CHAT
  }

  /** The loop's state: the channel, where the loop waits, the budget and the per-chat times. */
  datatype State = State(queue: seq<Message>, phase: Phase, counter: int, timeouts: map<int, int>)

  /** One segment's outcome: the next state, what happened, and the message it delivered, if any. */
  datatype Effect = Effect(next: State, result: StepResult, delivered: seq<Message>)

  /** The budget within [0, 30] and the channel within its capacity. */
  predicate Bounded(s: State) {
    0 <= s.counter <= LIMIT_RATE_PER_ALL && |s.queue| <= CAPACITY
  }

  /** The message the loop holds, as a multiset of zero or one. */
  function Held(p: Phase): multiset<Message> {
    if p.Receiving? then multiset{} else multiset{p.m}
  }

  /** Every message not yet delivered: queued or in hand. */
  function Pending(s: State): multiset<Message> {
    multiset(s.queue) + Held(s.phase)
  }

  /**
   * The loop waits to put a message back on a full channel. Only the loop itself drains the
   * channel, so it never gets out of this state.
   */
  predicate Stalled(s: State) {
    s.phase.PushBack? && |s.queue| >= CAPACITY
  }

  /**
   * `self.send.send(m).await` on the loop's own channel, for the message in hand. As written
   * (`inPlace` false) a full channel leaves the loop waiting for room. With `inPlace`, the
   * message stays in hand instead. A deferred message sleeps out the rest of its chat's
   * window before the call, as the error branch at `telegram-bot/src/sender.rs:116-122` does
   * ("we can't push_back - we must wait"), on the token already spent. Any other message
   * goes back to the budget poll, so its next attempt spends a token and is checked for
   * spacing like a message taken off the channel.
   */
  function PushBackEffect(s: State, why: StepResult, inPlace: bool): Effect
    requires !s.phase.Receiving?
  {
    if |s.queue| < CAPACITY then Effect(s.(queue := s.queue + [s.phase.m], phase := Receiving), why, [])
    else if inPlace && why == Deferred then Effect(s.(phase := Spacing(s.phase.m)), why, [])
    else if inPlace then Effect(s.(phase := Budget(s.phase.m)), why, [])
    else Effect(s.(phase := PushBack(s.phase.m)), Blocked, [])
  }

  /**
   * The sleep of `telegram-bot/src/sender.rs:118-121`, then on to the Telegram call at line
   * 126 without another token: the call starts once the chat's window has passed.
   */
  function SpacingEffect(s: State, now: int): Effect
    requires s.phase.Spacing?
  {
    if TooSoon(s.timeouts, s.phase.m.chat, now) then Effect(s, Waiting, [])
    else Effect(s.(phase := Transport(s.phase.m)), Started, [])
  }

  /** The budget poll, then the spacing check, for the message in hand. */
  function BudgetEffect(s: State, now: int, inPlace: bool): Effect
    requires s.phase.Budget?
  {
    if s.counter < 1 then Effect(s, Throttled, [])
    else
      var t := s.(counter := s.counter - 1);
      if TooSoon(s.timeouts, s.phase.m.chat, now) then PushBackEffect(t, Deferred, inPlace)
      else Effect(t.(phase := Transport(s.phase.m)), Started, [])
  }

  /** The end of the Telegram call in flight: the success recorded, or the message pushed back. */
  function CallEffect(s: State, now: int, ok: bool, inPlace: bool): Effect
    requires s.phase.Transport?
  {
    if ok then Effect(s.(phase := Receiving, timeouts := s.timeouts[s.phase.m.chat := now]), Sent, [s.phase.m])
    else PushBackEffect(s, Failed, inPlace)
  }

  /** One segment of the loop under either push-back policy. */
  function StepWith(s: State, now: int, ok: bool, inPlace: bool): Effect {
    match s.phase
    case Receiving =>
      if s.queue == [] then Effect(s, Idle, [])
      else BudgetEffect(s.(queue := s.queue[1..], phase := Budget(s.queue[0])), now, inPlace)
    case Budget(_) => BudgetEffect(s, now, inPlace)
    case Transport(_) => CallEffect(s, now, ok, inPlace)
    case PushBack(_) => PushBackEffect(s, Requeued, inPlace)
    case Spacing(_) => SpacingEffect(s, now)
  }

  /**
   * One segment of the `while let` loop as written, from one await to the next, at time
   * `now`; `ok` is the outcome of a Telegram call in flight. A waiting `recv` that returns
   * goes straight on to the budget poll. A token is spent before the spacing check, so a
   * deferral uses budget.
   */
  function StepEffect(s: State, now: int, ok: bool): Effect {
    StepWith(s, now, ok, false)
  }

  /**
   * The loop with a push-back that cannot proceed falling back to a retry in place: a deferral
   * sleeps out its window, a failed call polls the budget again.
   */
  function IntendedStepEffect(s: State, now: int, ok: bool): Effect {
    StepWith(s, now, ok, true)
  }

  /** A segment keeps the budget and the channel within their bounds, under either policy. */
  lemma StepKeepsBounds(s: State, now: int, ok: bool, inPlace: bool)
    requires Bounded(s)
    ensures Bounded(StepWith(s, now, ok, inPlace).next)
  {
  }

  /**
   * No message is lost or duplicated, under either policy: what was pending is pending still
   * or delivered.
   */
  lemma StepConserves(s: State, now: int, ok: bool, inPlace: bool)
    ensures Pending(StepWith(s, now, ok, inPlace).next) + multiset(StepWith(s, now, ok, inPlace).delivered) == Pending(s)
  {
    var e := StepWith(s, now, ok, inPlace);
    match s.phase
    case Receiving =>
      if s.queue != [] {
        assert e == BudgetEffect(s.(queue := s.queue[1..], phase := Budget(s.queue[0])), now, inPlace);
        ReceiveConserves(s, now, inPlace);
      }
    case Budget(_) =>
      assert e == BudgetEffect(s, now, inPlace);
      BudgetConserves(s, now, inPlace);
    case Transport(_) =>
      assert e == CallEffect(s, now, ok, inPlace);
      CallConserves(s, now, ok, inPlace);
    case PushBack(_) =>
      assert e == PushBackEffect(s, Requeued, inPlace);
      PushBackConserves(s, Requeued, inPlace);
    case Spacing(_) =>
      assert e == SpacingEffect(s, now);
  }

  /** Taking the head off the channel, then the budget poll, keeps the pending messages. */
  lemma ReceiveConserves(s: State, now: int, inPlace: bool)
    requires s.phase.Receiving? && s.queue != []
    ensures BudgetEffect(s.(queue := s.queue[1..], phase := Budget(s.queue[0])), now, inPlace).delivered == []
    ensures Pending(BudgetEffect(s.(queue := s.queue[1..], phase := Budget(s.queue[0])), now, inPlace).next) == Pending(s)
  {
    var t := s.(queue := s.queue[1..], phase := Budget(s.queue[0]));
    assert s.queue == [s.queue[0]] + s.queue[1..];
    assert Pending(t) == Pending(s);
    BudgetConserves(t, now, inPlace);
  }

  /** The end of a Telegram call delivers the message or keeps it pending. */
  lemma CallConserves(s: State, now: int, ok: bool, inPlace: bool)
    requires s.phase.Transport?
    ensures Pending(CallEffect(s, now, ok, inPlace).next) + multiset(CallEffect(s, now, ok, inPlace).delivered) == Pending(s)
  {
    if !ok {
      PushBackConserves(s, Failed, inPlace);
    }
  }

  /** Pushing back keeps the pending messages. */
  lemma PushBackConserves(s: State, why: StepResult, inPlace: bool)
    requires !s.phase.Receiving?
    ensures PushBackEffect(s, why, inPlace).delivered == []
    ensures Pending(PushBackEffect(s, why, inPlace).next) == Pending(s)
  {
    if |s.queue| < CAPACITY {
      assert multiset(s.queue + [s.phase.m]) == multiset(s.queue) + multiset{s.phase.m};
    } else {
      var next := PushBackEffect(s, why, inPlace).next;
      assert next.queue == s.queue && !next.phase.Receiving? && next.phase.m == s.phase.m;
    }
  }

  /** The budget poll keeps the pending messages. */
  lemma BudgetConserves(s: State, now: int, inPlace: bool)
    requires s.phase.Budget?
    ensures BudgetEffect(s, now, inPlace).delivered == []
    ensures Pending(BudgetEffect(s, now, inPlace).next) == Pending(s)
  {
    if s.counter >= 1 && TooSoon(s.timeouts, s.phase.m.chat, now) {
      PushBackConserves(s.(counter := s.counter - 1), Deferred, inPlace);
    }
  }

  /**
   * With the retry in place the loop never waits on its own channel: from a state that is
   * not waiting there, no segment blocks or starts to wait, whatever the clock or the transport.
   */
  lemma IntendedNeverStalls(s: State, now: int, ok: bool)
    requires !s.phase.PushBack?
    ensures IntendedStepEffect(s, now, ok).result != Blocked
    ensures !IntendedStepEffect(s, now, ok).next.phase.PushBack?
  {
  }

  /** A stalled loop stays stalled, whatever the clock or the transport. */
  lemma StalledStays(s: State, now: int, ok: bool)
    requires Stalled(s)
    ensures StepEffect(s, now, ok) == Effect(s, Blocked, [])
  {
  }

  /** A segment blocks exactly when it leaves the loop waiting on a full channel. */
  lemma BlockedIffStalled(s: State, now: int, ok: bool)
    ensures StepEffect(s, now, ok).result == Blocked <==> Stalled(StepEffect(s, now, ok).next)
  {
  }

  /**
   * A message is delivered only by a successful call, which records `now` for its chat alone,
   * under either policy.
   */
  lemma DeliveryRecordsTime(s: State, now: int, ok: bool, inPlace: bool)
    ensures StepWith(s, now, ok, inPlace).result == Sent <==> StepWith(s, now, ok, inPlace).delivered != []
    ensures StepWith(s, now, ok, inPlace).result == Sent ==>
      s.phase.Transport? && ok && StepWith(s, now, ok, inPlace).delivered == [s.phase.m]
      && StepWith(s, now, ok, inPlace).next.timeouts == s.timeouts[s.phase.m.chat := now]
    ensures StepWith(s, now, ok, inPlace).result != Sent ==> StepWith(s, now, ok, inPlace).next.timeouts == s.timeouts
  {
  }

  /**
   * The budget never grows inside the loop, under either policy. The Telegram call is entered
   * only by a start, and only when the chat is free: a chat with no record, or whose recorded
   * time lies after `now`, goes to the call. A start from the budget poll spends a token; a
   * start at the end of the spacing sleep uses the one spent before it. A deferral spends its
   * token too.
   */
  lemma StartNeedsTokenAndSpacing(s: State, now: int, ok: bool, inPlace: bool)
    ensures StepWith(s, now, ok, inPlace).next.counter <= s.counter
    ensures StepWith(s, now, ok, inPlace).next.phase.Transport? && !s.phase.Transport? <==>
      StepWith(s, now, ok, inPlace).result == Started
    ensures StepWith(s, now, ok, inPlace).result == Started ==>
      StepWith(s, now, ok, inPlace).next.phase.Transport?
      && !TooSoon(s.timeouts, StepWith(s, now, ok, inPlace).next.phase.m.chat, now)
    ensures StepWith(s, now, ok, inPlace).result == Started && !s.phase.Spacing? ==>
      StepWith(s, now, ok, inPlace).next.counter == s.counter - 1 && s.counter >= 1
    ensures StepWith(s, now, ok, inPlace).result == Started && s.phase.Spacing? ==>
      StepWith(s, now, ok, inPlace).next.counter == s.counter
    ensures StepWith(s, now, ok, inPlace).result == Throttled ==> s.counter < 1 && StepWith(s, now, ok, inPlace).next.counter == s.counter
    ensures StepWith(s, now, ok, inPlace).result == Deferred ==> s.counter >= 1 && StepWith(s, now, ok, inPlace).next.counter == s.counter - 1
    ensures s.phase.Budget? && s.counter >= 1 ==>
      (!TooSoon(s.timeouts, s.phase.m.chat, now) ==> StepWith(s, now, ok, inPlace).result == Started)
      && (TooSoon(s.timeouts, s.phase.m.chat, now) ==> StepWith(s, now, ok, inPlace).result in {Deferred, Blocked})
  {
  }

  /**
   * The loop as written never starts the spacing sleep: that branch runs only when the
   * push-back fails on a closed channel, which this model does not have.
   */
  lemma AsWrittenNeverSleeps(s: State, now: int, ok: bool)
    requires !s.phase.Spacing?
    ensures !StepEffect(s, now, ok).next.phase.Spacing?
  {
  }

  /**
   * The retry in place keeps both limits. A deferral sleeps in hand on its spent token, and
   * the sleep ends in the call only once the window has passed. A failed call goes back to the
   * budget poll, so its retry spends a fresh token. Neither comes back to the call directly.
   */
  lemma IntendedKeepsLimits(s: State, now: int, ok: bool)
    ensures IntendedStepEffect(s, now, ok).result == Deferred ==>
      IntendedStepEffect(s, now, ok).next.phase.Receiving? || IntendedStepEffect(s, now, ok).next.phase.Spacing?
    ensures IntendedStepEffect(s, now, ok).next.phase.Spacing? && !s.phase.Spacing? ==>
      IntendedStepEffect(s, now, ok).result == Deferred
      && TooSoon(s.timeouts, IntendedStepEffect(s, now, ok).next.phase.m.chat, now)
      && IntendedStepEffect(s, now, ok).next.counter == s.counter - 1
    ensures s.phase.Spacing? ==>
      (TooSoon(s.timeouts, s.phase.m.chat, now) <==> IntendedStepEffect(s, now, ok) == Effect(s, Waiting, []))
      && (!TooSoon(s.timeouts, s.phase.m.chat, now) <==> IntendedStepEffect(s, now, ok) == Effect(s.(phase := Transport(s.phase.m)), Started, []))
    ensures s.phase.Transport? && !ok ==>
      IntendedStepEffect(s, now, ok).result == Failed
      && IntendedStepEffect(s, now, ok).next.phase == (if |s.queue| < CAPACITY then Receiving else Budget(s.phase.m))
  {
  }

  /**
   * On a full channel, a message held back 10 ms after its chat's last success sleeps: it is
   * still waiting at 999 ms and goes to the call at 1000 ms, having spent one token.
   */
  lemma RetryInPlaceWaitsOutWindow(q: seq<Message>, m: Message)
    requires |q| == CAPACITY
    ensures IntendedStepEffect(State(q, Budget(m), 1, map[m.chat := 0]), 10, true)
      == Effect(State(q, Spacing(m), 0, map[m.chat := 0]), Deferred, [])
    ensures IntendedStepEffect(State(q, Spacing(m), 0, map[m.chat := 0]), 999, true).result == Waiting
    ensures IntendedStepEffect(State(q, Spacing(m), 0, map[m.chat := 0]), 1000, true)
      == Effect(State(q, Transport(m), 0, map[m.chat := 0]), Started, [])
  {
  }

  /** A message pushed back goes to the tail, behind everything queued. */
  lemma PushBackToTail(s: State, now: int, ok: bool)
    requires StepEffect(s, now, ok).result in {Deferred, Failed, Requeued}
    ensures StepEffect(s, now, ok).next.phase == Receiving
    ensures StepEffect(s, now, ok).next.queue == if s.phase.Receiving? then s.queue[1..] + [s.queue[0]] else s.queue + [s.phase.m]
  {
  }

  class MessageSender {
    /** The channel's contents, oldest first. */
    var queue: seq<Message>
    /** Where the loop waits, and the message it has taken off the channel. */
    var phase: Phase
    /** The shared `AtomicI64` budget. */
    var counter: int
    /** Time of the last successful send per chat. */
    var timeouts: map<int, int>

    function Snapshot(): State
      reads this
    {
      State(queue, phase, counter, timeouts)
    }

    /** The budget within [0, 30] and the channel within its capacity. */
    ghost predicate Valid()
      reads this
    {
      Bounded(Snapshot())
    }

    constructor ()
      ensures Valid()
      ensures Snapshot() == State([], Receiving, LIMIT_RATE_PER_ALL, map[])
    {
      queue := [];
      phase := Receiving;
      counter := LIMIT_RATE_PER_ALL;
      timeouts := map[];
    }

    /**
     * A producer's `send`: the message joins the tail iff the channel has room. A false `ok`
     * stands for the producer suspended in `send(...).await` until a slot is freed; it
     * calls again later.
     */
    method Send(m: Message) returns (ok: bool)
      requires Valid()
      modifies this
      ensures Valid()
      ensures ok <==> old(|queue|) < CAPACITY
      ensures ok ==> queue == old(queue) + [m]
      ensures !ok ==> queue == old(queue)
      ensures phase == old(phase) && counter == old(counter) && timeouts == old(timeouts)
    {
      if |queue| < CAPACITY {
        queue := queue + [m];
        ok := true;
      } else {
        ok := false;
      }
    }

    /** The replenisher's once-a-second store of the full budget. */
    method Tick()
      requires Valid()
      modifies this
      ensures Valid()
      ensures counter == LIMIT_RATE_PER_ALL
      ensures queue == old(queue) && phase == old(phase) && timeouts == old(timeouts)
    {
      counter := LIMIT_RATE_PER_ALL;
    }

    /** `self.send.send(m).await` on the loop's own channel, for the message in hand. */
    method PutBack(why: StepResult) returns (r: StepResult)
      requires !phase.Receiving?
      modifies this
      ensures Snapshot() == PushBackEffect(old(Snapshot()), why, false).next
      ensures r == PushBackEffect(old(Snapshot()), why, false).result
    {
      if |queue| < CAPACITY {
        queue := queue + [phase.m];
        phase := Receiving;
        r := why;
      } else {
        phase := PushBack(phase.m);
        r := Blocked;
      }
    }

    /** The budget poll and the spacing check for the message in hand. */
    method TakeToken(now: int) returns (r: StepResult)
      requires phase.Budget?
      modifies this
      ensures Snapshot() == BudgetEffect(old(Snapshot()), now, false).next
      ensures r == BudgetEffect(old(Snapshot()), now, false).result
    {
      if counter < 1 {
        r := Throttled;
      } else {
        counter := counter - 1;
        if TooSoon(timeouts, phase.m.chat, now) {
          r := PutBack(Deferred);
        } else {
          phase := Transport(phase.m);
          r := Started;
        }
      }
    }

    /** The end of the Telegram call in flight. */
    method Finish(now: int, transportOk: bool) returns (r: StepResult)
      requires phase.Transport?
      modifies this
      ensures Snapshot() == CallEffect(old(Snapshot()), now, transportOk, false).next
      ensures r == CallEffect(old(Snapshot()), now, transportOk, false).result
    {
      if transportOk {
        timeouts := timeouts[phase.m.chat := now];
        phase := Receiving;
        r := Sent;
      } else {
        r := PutBack(Failed);
      }
    }

    /** The sleep out of the chat's window, then on to the Telegram call on the token already spent. */
    method Sleep(now: int) returns (r: StepResult)
      requires phase.Spacing?
      modifies this
      ensures Snapshot() == SpacingEffect(old(Snapshot()), now).next
      ensures r == SpacingEffect(old(Snapshot()), now).result
    {
      if TooSoon(timeouts, phase.m.chat, now) {
        r := Waiting;
      } else {
        phase := Transport(phase.m);
        r := Started;
      }
    }

    /** One segment of the consumer loop, as `StepEffect` says. */
    method Step(now: int, transportOk: bool) returns (r: StepResult)
      requires Valid()
      modifies this
      ensures Valid()
      ensures Snapshot() == StepEffect(old(Snapshot()), now, transportOk).next
      ensures r == StepEffect(old(Snapshot()), now, transportOk).result
    {
      StepKeepsBounds(Snapshot(), now, transportOk, false);
      match phase {
        case Receiving =>
          if queue == [] {
            r := Idle;
          } else {
            phase := Budget(queue[0]);
            queue := queue[1..];
            r := TakeToken(now);
          }
        case Budget(_) => r := TakeToken(now);
        case Transport(_) => r := Finish(now, transportOk);
        case PushBack(_) => r := PutBack(Requeued);
        case Spacing(_) => r := Sleep(now);
      }
    }
  }

  /**
   * The loop can stall for good: a full channel, a message received, a producer filling the
   * freed slot while the Telegram call is in flight, and the call failing.
   */
  method FullChannelStalls(m: Message) returns (s: MessageSender)
    ensures s.Valid() && Stalled(s.Snapshot())
  {
    s := new MessageSender();
    var i := 0;
    while i < CAPACITY
      invariant 0 <= i <= CAPACITY
      invariant s.Valid() && s.phase == Receiving && |s.queue| == i
      invariant s.counter == LIMIT_RATE_PER_ALL && s.timeouts == map[]
    {
      var ok := s.Send(m);
      i := i + 1;
    }
    var r := s.Step(0, true);
    assert r == Started;
    var ok := s.Send(m);
    r := s.Step(0, false);
    assert r == Blocked;
  }

  /** Of two messages for one chat, the second cannot go out within 1000 ms of the first's success. */
  lemma SpacingAfterSuccess(timeouts: map<int, int>, chat: int, sentAt: int, now: int)
    requires sentAt <= now < sentAt + LIMIT_RATE_PER_CHAT
    ensures TooSoon(timeouts[chat := sentAt], chat, now)
    ensures forall other :: other != chat ==> (TooSoon(timeouts[chat := sentAt], other, now) <==> TooSoon(timeouts, other, now))
  {
  }
}
