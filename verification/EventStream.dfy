/** `OperationService::event_stream` in `src/operations.rs`: subscribe to the live
    channel, read the durable history, then follow the channel, reading the
    history again whenever the receiver has lagged.

    `Yielded` says what a subscriber sees of the events that arrive, in the order
    they arrive and from whichever source. `Follow` is the loop itself. `Sys` lets
    commits, publications, lag and the subscriber's own reads interleave. */
module EventStream {
  import Ledger

  type OpId = Ledger.OpId

  /** What `live.recv()` can return; `Lagged` comes with the rows of the lookup
      that follows it, `LaggedUnread` with its failure. */
  datatype Received = Live(id: OpId, sequence: nat) | Lagged(rows: seq<nat>) | LaggedUnread | Closed
  {
    predicate IsLast() {
      LaggedUnread? || Closed?
    }
  }

  function Max(a: nat, b: nat): nat {
    if a < b then b else a
  }

  /** The newest event number seen once `arrivals` went by. */
  function LastSeen(after: nat, arrivals: seq<nat>): nat {
    if arrivals == [] then after
    else Max(LastSeen(after, arrivals[..|arrivals| - 1]), arrivals[|arrivals| - 1])
  }

  /** The numbers passed on to the subscriber: those newer than everything before them. */
  function Yielded(after: nat, arrivals: seq<nat>): seq<nat> {
    if arrivals == [] then []
    else
      var earlier, newest := arrivals[..|arrivals| - 1], arrivals[|arrivals| - 1];
      Yielded(after, earlier) + if newest > LastSeen(after, earlier) then [newest] else []
  }

  /** `yielded` is after + 1, after + 2, ..., last. */
  ghost predicate Contiguous(yielded: seq<nat>, after: nat, last: nat) {
    && after <= last
    && |yielded| == last - after
    && forall i :: 0 <= i < |yielded| ==> yielded[i] == after + 1 + i
  }

  function Arrivals(id: OpId, received: seq<Received>): seq<nat> {
    if received == [] || received[0].IsLast() then []
    else
      (match received[0]
       case Live(other, sequence) => if other == id then [sequence] else []
       case Lagged(rows) => rows
       case _ => [])
      + Arrivals(id, received[1..])
  }

  /** The stream ends with an error: the first thing to end it is a failed lookup. */
  ghost predicate EndsInError(received: seq<Received>) {
    exists n :: 0 <= n < |received| && received[n].LaggedUnread? && forall m :: 0 <= m < n ==> !received[m].IsLast()
  }

  lemma {:induction false} OneMore(after: nat, arrivals: seq<nat>, sequence: nat)
    ensures LastSeen(after, arrivals + [sequence]) == Max(LastSeen(after, arrivals), sequence)
    ensures Yielded(after, arrivals + [sequence])
         == Yielded(after, arrivals) + if sequence > LastSeen(after, arrivals) then [sequence] else []
  {
    assert (arrivals + [sequence])[..|arrivals|] == arrivals;
  }

  /** The stream a subscriber reads, for as long as it reads it. */
  method Follow(id: OpId, after: nat, history: seq<nat>, received: seq<Received>)
    returns (yielded: seq<nat>, failed: bool)
    ensures yielded == Yielded(after, history + Arrivals(id, received))
    ensures failed <==> EndsInError(received)
  {
    hide Yielded, LastSeen, Arrivals;
    failed := false;
    NothingArrived(after);
    var lastSequence;
    lastSequence, yielded := PassOn(after, [], history, after, []);
    ghost var arrived := history;
    assert [] + history == history;
    assert received[0..] == received;
    var i := 0;
    while i < |received|
      invariant 0 <= i <= |received|
      invariant lastSequence == LastSeen(after, arrived) && yielded == Yielded(after, arrived)
      invariant arrived + Arrivals(id, received[i..]) == history + Arrivals(id, received)
      invariant !failed && forall m :: 0 <= m < i ==> !received[m].IsLast()
    {
      match received[i] {
      case Live(other, sequence) =>
        if other == id {
          if sequence > lastSequence {
            OneMore(after, arrived, sequence);
            lastSequence := sequence;
            yielded := yielded + [sequence];
          } else {
            OneMore(after, arrived, sequence);
            assert yielded + [] == yielded;
          }
        }
        assert arrived + [] == arrived;
        ArrivalsUnfold(id, received, i, arrived);
        arrived := arrived + if other == id then [sequence] else [];
      case Lagged(rows) =>
        lastSequence, yielded := PassOn(after, arrived, rows, lastSequence, yielded);
        ArrivalsUnfold(id, received, i, arrived);
        arrived := arrived + rows;
      case LaggedUnread =>
        ArrivalsEnd(id, received, i, arrived);
        return yielded, true;
      case Closed =>
        ArrivalsEnd(id, received, i, arrived);
        return;
      }
      i := i + 1;
    }
    ArrivalsEnd(id, received, i, arrived);
  }

  lemma NothingArrived(after: nat)
    ensures Yielded(after, []) == [] && LastSeen(after, []) == after
  {
  }

  lemma ArrivalsEnd(id: OpId, received: seq<Received>, i: nat, arrived: seq<nat>)
    requires i == |received| || (i < |received| && received[i].IsLast())
    ensures arrived + Arrivals(id, received[i..]) == arrived
  {
  }

  lemma ArrivalsUnfold(id: OpId, received: seq<Received>, i: nat, arrived: seq<nat>)
    requires i < |received| && !received[i].IsLast()
    ensures received[i].Lagged? ==>
              arrived + Arrivals(id, received[i..]) == arrived + received[i].rows + Arrivals(id, received[i + 1..])
    ensures received[i].Live? ==>
              arrived + Arrivals(id, received[i..])
                == arrived + (if received[i].id == id then [received[i].sequence] else [])
                   + Arrivals(id, received[i + 1..])
  {
    assert received[i..][0] == received[i] && received[i..][1..] == received[i + 1..];
  }

  /** The loop over rows of a history lookup. */
  method PassOn(after: nat, ghost arrived: seq<nat>, rows: seq<nat>, last: nat, sofar: seq<nat>)
    returns (lastSequence: nat, yielded: seq<nat>)
    requires last == LastSeen(after, arrived) && sofar == Yielded(after, arrived)
    ensures lastSequence == LastSeen(after, arrived + rows) && yielded == Yielded(after, arrived + rows)
  {
    hide Yielded, LastSeen;
    lastSequence, yielded := last, sofar;
    assert arrived + rows[..0] == arrived;
    for i := 0 to |rows|
      invariant lastSequence == LastSeen(after, arrived + rows[..i])
      invariant yielded == Yielded(after, arrived + rows[..i])
    {
      OneMore(after, arrived + rows[..i], rows[i]);
      assert arrived + rows[..i + 1] == arrived + rows[..i] + [rows[i]];
      if rows[i] > lastSequence {
        lastSequence := rows[i];
        yielded := yielded + [rows[i]];
      }
    }
    assert rows[..|rows|] == rows;
  }

  // ------------------------------------------------- Whatever the order

  ghost predicate StrictlyIncreasing(s: seq<nat>) {
    forall i, j :: 0 <= i < j < |s| ==> s[i] < s[j]
  }

  /** No event is ever seen twice or out of order, however events are published. */
  lemma {:induction false} YieldsStrictlyIncrease(after: nat, arrivals: seq<nat>)
    ensures StrictlyIncreasing(Yielded(after, arrivals))
    ensures forall k <- Yielded(after, arrivals) :: after < k <= LastSeen(after, arrivals) && k in arrivals
  {
    if arrivals != [] {
      var earlier := arrivals[..|arrivals| - 1];
      YieldsStrictlyIncrease(after, earlier);
      LastSeenBounds(after, earlier);
      assert arrivals == earlier + [arrivals[|arrivals| - 1]];
      forall k <- Yielded(after, arrivals) ensures after < k <= LastSeen(after, arrivals) && k in arrivals {
        assert k in Yielded(after, earlier) || k == arrivals[|arrivals| - 1];
      }
      forall i | 0 <= i < |Yielded(after, earlier)| ensures Yielded(after, earlier)[i] <= LastSeen(after, earlier) {
        assert Yielded(after, earlier)[i] in Yielded(after, earlier);
      }
    }
  }

  lemma {:induction false} LastSeenBounds(after: nat, arrivals: seq<nat>)
    ensures after <= LastSeen(after, arrivals)
    ensures forall k <- arrivals :: k <= LastSeen(after, arrivals)
    ensures LastSeen(after, arrivals) == after || LastSeen(after, arrivals) in Yielded(after, arrivals)
  {
    if arrivals != [] {
      var earlier := arrivals[..|arrivals| - 1];
      LastSeenBounds(after, earlier);
      assert arrivals == earlier + [arrivals[|arrivals| - 1]];
    }
  }

  /** Every event newer than its predecessor's number arrives after that predecessor. */
  ghost predicate NoneOvertakes(after: nat, arrivals: seq<nat>) {
    forall j :: 0 <= j < |arrivals| ==> Follows(after, arrivals[..j], arrivals[j])
  }

  predicate Follows(after: nat, earlier: seq<nat>, newest: nat) {
    newest > after + 1 ==> newest - 1 in earlier
  }

  /** A stream has no gap exactly when no event overtakes its predecessor on the
      way to the subscriber. */
  lemma {:induction false} GapFreeExactlyWhenNoneOvertakes(after: nat, arrivals: seq<nat>)
    ensures Contiguous(Yielded(after, arrivals), after, LastSeen(after, arrivals)) <==> NoneOvertakes(after, arrivals)
  {
    if arrivals != [] {
      var earlier := arrivals[..|arrivals| - 1];
      GapFreeExactlyWhenNoneOvertakes(after, earlier);
      NoneOvertakesPrefix(after, arrivals);
      OneMoreIsContiguous(after, earlier, arrivals[|arrivals| - 1]);
      assert arrivals == earlier + [arrivals[|arrivals| - 1]];
    }
  }

  lemma NoneOvertakesPrefix(after: nat, arrivals: seq<nat>)
    requires arrivals != []
    ensures var n := |arrivals| - 1;
            NoneOvertakes(after, arrivals) <==>
              NoneOvertakes(after, arrivals[..n]) && Follows(after, arrivals[..n], arrivals[n])
  {
    var n := |arrivals| - 1;
    var earlier := arrivals[..n];
    forall j | 0 <= j < n ensures earlier[..j] == arrivals[..j] && earlier[j] == arrivals[j] {
    }
    if NoneOvertakes(after, arrivals) {
      forall j | 0 <= j < n ensures Follows(after, earlier[..j], earlier[j]) {
        assert Follows(after, arrivals[..j], arrivals[j]);
      }
    }
    if NoneOvertakes(after, earlier) && Follows(after, earlier, arrivals[n]) {
      forall j | 0 <= j < |arrivals| ensures Follows(after, arrivals[..j], arrivals[j]) {
        assert j < n ==> Follows(after, earlier[..j], earlier[j]);
      }
    }
  }

  lemma OneMoreIsContiguous(after: nat, earlier: seq<nat>, newest: nat)
    requires Contiguous(Yielded(after, earlier), after, LastSeen(after, earlier)) <==> NoneOvertakes(after, earlier)
    ensures Contiguous(Yielded(after, earlier + [newest]), after, LastSeen(after, earlier + [newest])) <==>
              NoneOvertakes(after, earlier) && Follows(after, earlier, newest)
  {
    OneMore(after, earlier, newest);
    if newest > LastSeen(after, earlier) {
      NewerIsContiguous(after, earlier, newest);
    } else {
      assert Yielded(after, earlier) + [] == Yielded(after, earlier);
      if NoneOvertakes(after, earlier) {
        OlderFollows(after, earlier, newest);
      }
    }
  }

  lemma NewerIsContiguous(after: nat, earlier: seq<nat>, newest: nat)
    requires newest > LastSeen(after, earlier)
    ensures Contiguous(Yielded(after, earlier) + [newest], after, newest) <==>
              Contiguous(Yielded(after, earlier), after, LastSeen(after, earlier)) && Follows(after, earlier, newest)
  {
    var last := LastSeen(after, earlier);
    LastSeenBounds(after, earlier);
    YieldsStrictlyIncrease(after, earlier);
    ContiguousGrows(Yielded(after, earlier), after, last, newest);
    assert Follows(after, earlier, newest) ==> newest == last + 1;
  }

  lemma OlderFollows(after: nat, earlier: seq<nat>, newest: nat)
    requires newest <= LastSeen(after, earlier)
    requires Contiguous(Yielded(after, earlier), after, LastSeen(after, earlier))
    ensures Follows(after, earlier, newest)
  {
    if newest > after + 1 {
      assert Yielded(after, earlier)[newest - 2 - after] == newest - 1;
      YieldsStrictlyIncrease(after, earlier);
    }
  }

  lemma ContiguousGrows(yielded: seq<nat>, after: nat, last: nat, newest: nat)
    requires after <= last < newest
    requires last == after || last in yielded
    requires forall k <- yielded :: k <= last
    ensures Contiguous(yielded + [newest], after, newest) <==> Contiguous(yielded, after, last) && newest == last + 1
  {
    if Contiguous(yielded + [newest], after, newest) {
      forall i | 0 <= i < |yielded| ensures yielded[i] == after + 1 + i {
        assert (yielded + [newest])[i] == yielded[i];
      }
      if yielded != [] {
        assert yielded[|yielded| - 1] == newest - 1 && yielded[|yielded| - 1] in yielded;
      }
    }
  }

  /** A commit published before an earlier one of the same operation loses the
      earlier one for a subscriber that is already following. */
  lemma OvertakenEventIsLost()
    ensures Yielded(0, Arrivals(7, [Live(7, 2), Live(7, 1), Closed])) == [2]
  {
    assert Arrivals(7, [Live(7, 2), Live(7, 1), Closed]) == [2, 1] by {
      assert [Live(7, 2), Live(7, 1), Closed][1..] == [Live(7, 1), Closed];
      assert [Live(7, 1), Closed][1..] == [Closed];
    }
    assert [2, 1][..1] == [2];
    assert [2][..0] == [];
  }

  // --------------------------------------------------------- Interleavings

  datatype Message = Message(id: OpId, sequence: nat)

  datatype Reader =
    | Detached
    | Subscribed(cursor: nat)
    | Following(cursor: nat, lagged: bool)

  /** One subscriber of operation `id` from position `after`. `committed` is the
      length of the operation's durable log, `channel` everything ever published,
      `arrivals` what the subscriber was handed so far. */
  datatype Sys = Sys(id: OpId, after: nat, committed: nat, channel: seq<Message>, reader: Reader, arrivals: seq<nat>)
  {
    function Output(): seq<nat> {
      Yielded(after, arrivals)
    }

    function Last(): nat {
      LastSeen(after, arrivals)
    }
  }

  datatype Step =
    | Commit
    | Publish(message: Message)
    | Subscribe
    | ReadHistory
    | Receive
    | FallBehind(cursor: nat)
    | Backfill

  /** What `events_after(id, after)` returns from a log of `committed` events. */
  function Numbers(after: nat, committed: nat): seq<nat> {
    if committed <= after then [] else Numbers(after, committed - 1) + [committed]
  }

  /** The rows of a chained ledger that `events_after` selects, oldest first. */
  lemma {:induction false} LookupReturnsNumbers(db: Ledger.Db, id: OpId, after: nat, k: nat)
    requires Ledger.Chained(db) && id in db.rows
    ensures k in Numbers(after, db.rows[id].progressSeq) <==> k > after && (id, k) in db.events
  {
    if k > after {
      Ledger.HistoryAfterIsContiguous(db, id, after);
    }
    NumbersAre(after, db.rows[id].progressSeq);
  }

  lemma {:induction false} NumbersAre(after: nat, committed: nat)
    ensures forall k :: k in Numbers(after, committed) <==> after < k <= committed
    ensures StrictlyIncreasing(Numbers(after, committed))
  {
    if committed > after {
      NumbersAre(after, committed - 1);
      var rows := Numbers(after, committed - 1);
      forall i | 0 <= i < |rows| ensures rows[i] < committed {
        assert rows[i] in rows;
      }
    }
  }

  function Own(id: OpId, channel: seq<Message>): nat {
    if channel == [] then 0
    else Own(id, channel[..|channel| - 1]) + if channel[|channel| - 1].id == id then 1 else 0
  }

  ghost predicate Next(s: Sys, step: Step, t: Sys) {
    match step
    case Commit =>
      t == s.(committed := s.committed + 1)
    case Publish(message) =>
      && (message.id == s.id ==> 1 <= message.sequence <= s.committed)
      && t == s.(channel := s.channel + [message])
    case Subscribe =>
      s.reader.Detached? && t == s.(reader := Subscribed(|s.channel|))
    case ReadHistory =>
      && s.reader.Subscribed?
      && t == s.(reader := Following(s.reader.cursor, false), arrivals := Numbers(s.after, s.committed))
    case Receive =>
      && s.reader.Following? && !s.reader.lagged && s.reader.cursor < |s.channel|
      && var message := s.channel[s.reader.cursor];
         t == s.(reader := Following(s.reader.cursor + 1, false),
                 arrivals := if message.id == s.id then s.arrivals + [message.sequence] else s.arrivals)
    case FallBehind(cursor) =>
      && s.reader.Following? && !s.reader.lagged && s.reader.cursor < cursor <= |s.channel|
      && t == s.(reader := Following(cursor, true))
    case Backfill =>
      && s.reader.Following? && s.reader.lagged
      && t == s.(reader := Following(s.reader.cursor, false), arrivals := s.arrivals + Numbers(s.Last(), s.committed))
  }

  /** Publication in commit order: the next event of the operation that is published
      is the oldest one that was not. */
  ghost predicate InCommitOrder(s: Sys, step: Step) {
    step.Publish? && step.message.id == s.id ==> step.message.sequence == Own(s.id, s.channel) + 1
  }

  ghost predicate IsRun(run: seq<Sys>, steps: seq<Step>) {
    && |run| == |steps| + 1
    && run[0] == Sys(run[0].id, run[0].after, 0, [], Detached, [])
    && forall i :: 0 <= i < |steps| ==> Next(run[i], steps[i], run[i + 1])
  }

  /** The `j`-th message, if it is the operation's, has the next number. */
  ghost predicate Ordered(id: OpId, channel: seq<Message>) {
    forall j :: 0 <= j < |channel| && channel[j].id == id ==> channel[j].sequence == Own(id, channel[..j]) + 1
  }

  ghost predicate Inv(s: Sys) {
    && Ordered(s.id, s.channel)
    && Own(s.id, s.channel) <= s.committed
    && ReaderOk(s)
  }

  ghost predicate ReaderOk(s: Sys) {
    match s.reader
    case Detached => s.arrivals == []
    case Subscribed(cursor) => cursor <= |s.channel| && s.arrivals == []
    case Following(cursor, lagged) =>
      && cursor <= |s.channel|
      && Contiguous(s.Output(), s.after, s.Last())
      && s.Last() <= Max(s.after, s.committed)
      && (!lagged ==> Own(s.id, s.channel[..cursor]) <= s.Last())
  }

  lemma {:induction false} OwnIsMonotone(id: OpId, channel: seq<Message>, cursor: nat)
    requires cursor <= |channel|
    ensures Own(id, channel[..cursor]) <= Own(id, channel)
  {
    if cursor < |channel| {
      OwnIsMonotone(id, channel[..|channel| - 1], cursor);
      assert channel[..|channel| - 1][..cursor] == channel[..cursor];
    } else {
      assert channel[..cursor] == channel;
    }
  }

  /** A lookup from any position the stream has reached continues it without a gap. */
  lemma {:induction false} HistoryContinues(after: nat, arrivals: seq<nat>, from: nat, committed: nat)
    requires Contiguous(Yielded(after, arrivals), after, LastSeen(after, arrivals)) && from == LastSeen(after, arrivals)
    ensures LastSeen(after, arrivals + Numbers(from, committed)) == Max(from, committed)
    ensures Contiguous(Yielded(after, arrivals + Numbers(from, committed)), after, Max(from, committed))
  {
    hide Yielded, LastSeen;
    if committed <= from {
      assert arrivals + Numbers(from, committed) == arrivals;
    } else {
      HistoryContinues(after, arrivals, from, committed - 1);
      OneMore(after, arrivals + Numbers(from, committed - 1), committed);
      assert arrivals + Numbers(from, committed) == arrivals + Numbers(from, committed - 1) + [committed];
    }
  }

  lemma NextKeepsInv(s: Sys, step: Step, t: Sys)
    requires Inv(s) && Next(s, step, t) && InCommitOrder(s, step)
    ensures Inv(t)
  {
    match step
    case Commit =>
    case Publish(message) => PublishKeepsInv(s, message, t);
    case Subscribe =>
    case ReadHistory =>
      OwnIsMonotone(s.id, s.channel, s.reader.cursor);
      HistoryContinues(s.after, [], s.after, s.committed);
      assert [] + Numbers(s.after, s.committed) == Numbers(s.after, s.committed);
    case Receive => ReceiveKeepsInv(s, t);
    case FallBehind(_) =>
    case Backfill =>
      OwnIsMonotone(s.id, s.channel, s.reader.cursor);
      HistoryContinues(s.after, s.arrivals, s.Last(), s.committed);
  }

  lemma PublishKeepsInv(s: Sys, message: Message, t: Sys)
    requires Inv(s) && Next(s, Publish(message), t) && InCommitOrder(s, Publish(message))
    ensures Inv(t)
  {
    assert t.channel[..|s.channel|] == s.channel;
    forall j | 0 <= j < |t.channel| && t.channel[j].id == s.id
      ensures t.channel[j].sequence == Own(s.id, t.channel[..j]) + 1
    {
      assert t.channel[..j] == s.channel[..j];
      assert j == |s.channel| ==> s.channel[..j] == s.channel;
    }
    if s.reader.Following? {
      assert t.channel[..s.reader.cursor] == s.channel[..s.reader.cursor];
    }
  }

  lemma ReceiveKeepsInv(s: Sys, t: Sys)
    requires Inv(s) && Next(s, Receive, t)
    ensures Inv(t)
  {
    hide Yielded, LastSeen;
    var cursor := s.reader.cursor;
    assert s.channel[..cursor + 1][..cursor] == s.channel[..cursor];
    OwnIsMonotone(s.id, s.channel, cursor + 1);
    if s.channel[cursor].id == s.id {
      var sequence := s.channel[cursor].sequence;
      OneMore(s.after, s.arrivals, sequence);
      if sequence <= s.Last() {
        assert s.Output() + [] == s.Output();
      }
    }
  }

  lemma {:induction false} InvAlways(run: seq<Sys>, steps: seq<Step>, i: nat)
    requires IsRun(run, steps) && i < |run|
    requires forall j :: 0 <= j < |steps| ==> InCommitOrder(run[j], steps[j])
    ensures Inv(run[i])
  {
    if i > 0 {
      InvAlways(run, steps, i - 1);
      NextKeepsInv(run[i - 1], steps[i - 1], run[i]);
    }
  }

  /** With publication in commit order a subscriber has always read exactly after+1,
      after+2, ... with no gap and no repetition, through any interleaving of
      commits, publications, lag and lookups; and once the channel is drained and
      everything committed is published, it has read up to the last commit. */
  lemma StreamIsComplete(run: seq<Sys>, steps: seq<Step>, i: nat)
    requires IsRun(run, steps) && i < |run|
    requires forall j :: 0 <= j < |steps| ==> InCommitOrder(run[j], steps[j])
    ensures var s := run[i];
            Contiguous(s.Output(), s.after, s.Last()) && s.Last() <= Max(s.after, s.committed)
    ensures var s := run[i];
            s.reader == Following(|s.channel|, false) && Own(s.id, s.channel) == s.committed ==>
              s.Last() == Max(s.after, s.committed)
  {
    InvAlways(run, steps, i);
    var s := run[i];
    assert s.channel[..|s.channel|] == s.channel;
    LastSeenBounds(s.after, s.arrivals);
  }

  /** A commit that is never published (its reply was lost) leaves a gap: subscribed
      and following before commits 1 and 2, the subscriber reads 2 alone. */
  lemma UnpublishedCommitIsAGap()
    ensures exists run: seq<Sys>, steps: seq<Step> ::
              IsRun(run, steps) && run[|run| - 1].committed == 2 && run[|run| - 1].Output() == [2]
  {
    var s0 := Sys(7, 0, 0, [], Detached, []);
    var s1 := s0.(reader := Subscribed(0));
    var s2 := s0.(reader := Following(0, false));
    var s3 := s2.(committed := 1);
    var s4 := s2.(committed := 2);
    var s5 := s4.(channel := [Message(7, 2)]);
    var s6 := s5.(reader := Following(1, false), arrivals := [2]);
    var run := [s0, s1, s2, s3, s4, s5, s6];
    var steps := [Subscribe, ReadHistory, Commit, Commit, Publish(Message(7, 2)), Receive];
    OneMore(0, [], 2);
    assert [] + [2] == [2];
    assert IsRun(run, steps);
    assert run[|run| - 1] == s6;
  }
}
