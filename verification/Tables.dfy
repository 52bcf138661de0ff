/**
What a room's table is, said from the events alone: who sits where is decided by
the last event about each player, the rules have applied every event once and in
order, and ownership goes with the earliest seat (`Game::append` and `seat` in
crates/tpf3mp-server/src/room.rs).
*/
module Tables {
  import opened Protocol
  import opened Sequencer
  import opened Recovery
  import opened Server
  import opened Lifetime

  /** The rules' state after `events`. */
  function Applied<S>(rules: Rules<S>, state: S, events: seq<Event>): S
    decreases |events|
  {
    if events == [] then state else rules.apply(Applied(rules, state, Init(events)), Last(events))
  }

  lemma {:induction false} RulesAre<S>(rules: Rules<S>, t: Table<S>, events: seq<Event>)
    ensures WitnessAll(rules, t, events).rules == Applied(rules, t.rules, events)
    decreases |events|
  {
    if events != [] { RulesAre(rules, t, Init(events)); }
  }

  /** The player an event seats or unseats. */
  function About(event: Event): Option<PlayerId> {
    match event.body
    case PlayerJoined(player, _, _) => Some(player)
    case PlayerLeft(player, _) => Some(player)
    case _ => None
  }

  /** The event seats a player whom no later one is about. */
  predicate Seats(events: seq<Event>, i: nat) {
    && i < |events| && events[i].body.PlayerJoined?
    && forall j | i < j < |events| :: About(events[j]) != Some(events[i].body.player)
  }

  function SeatOf(event: Event): Seat
    requires event.body.PlayerJoined?
  {
    Seat(event.body.player, event.body.name, event.body.platform)
  }

  /** The seats the first `n` of `events` leave, in the order they were taken. */
  function Sitting(events: seq<Event>, n: nat): seq<Seat>
    requires n <= |events|
  {
    if n == 0 then []
    else Sitting(events, n - 1) + if Seats(events, n - 1) then [SeatOf(events[n - 1])] else []
  }

  lemma {:induction false} UnseatAppend(a: seq<Seat>, b: seq<Seat>, player: PlayerId)
    ensures Unseat(a + b, player) == Unseat(a, player) + Unseat(b, player)
  {
    if a == [] {
      assert a + b == b;
    } else {
      UnseatAppend(a[1..], b, player);
      assert (a + b)[0] == a[0] && (a + b)[1..] == a[1..] + b;
      Assoc(if a[0].player == player then [] else [a[0]], Unseat(a[1..], player), Unseat(b, player));
    }
  }

  lemma UnseatOne(seat: Seat, player: PlayerId)
    ensures Unseat([seat], player) == if seat.player == player then [] else [seat]
  {
    assert [seat][1..] == [];
  }

  /** One more event takes away the seat of the player it is about. */
  lemma {:induction false} SittingDrops(events: seq<Event>, event: Event, n: nat)
    requires n <= |events|
    ensures Sitting(events + [event], n)
            == match About(event)
               case None => Sitting(events, n)
               case Some(player) => Unseat(Sitting(events, n), player)
  {
    if n > 0 {
      var more, i := events + [event], n - 1;
      SittingDrops(events, event, i);
      assert more[i] == events[i];
      SeatsOn(events, event, i);
      if About(event).Some? {
        UnseatAppend(Sitting(events, i), if Seats(events, i) then [SeatOf(events[i])] else [], About(event).value);
        if Seats(events, i) { UnseatOne(SeatOf(events[i]), About(event).value); }
      }
    }
  }

  lemma SeatsOn(events: seq<Event>, event: Event, i: nat)
    requires i < |events|
    ensures Seats(events + [event], i)
            <==> Seats(events, i) && About(event) != Some(events[i].body.player)
  {
    var more := events + [event];
    assert more[i] == events[i] && more[|events|] == event;
    if Seats(more, i) {
      assert forall j | i < j < |events| :: more[j] == events[j];
    }
  }

  lemma {:induction false} SeatsAre<S>(rules: Rules<S>, t: Table<S>, events: seq<Event>)
    requires t.seated == []
    ensures WitnessAll(rules, t, events).seated == Sitting(events, |events|)
    decreases |events|
  {
    if events != [] {
      var before, event := Init(events), Last(events);
      SeatsAre(rules, t, before);
      assert events == before + [event];
      SittingDrops(before, event, |before|);
    }
  }

  /** In every state of a room: the rules have applied exactly the ordered events, in
      order; exactly those sit whose last event seated them, in the order they took
      their seats; and the first of them owns the room. */
  lemma RoomIs<S>(rules: Rules<S>, start: StartRecord, l: Life<S>, length: FrameLength)
    requires LifeInv(rules, start, l, length)
    ensures var ordered := EventsOf(TurnsIn(l.records)) + l.room.game.pending;
            && l.room.rules == Applied(rules, rules.initial, ordered)
            && l.room.game.seated == Sitting(ordered, |ordered|)
            && (l.room.game.seated != [] ==> l.room.owner == l.room.game.seated[0].player)
  {
    var seen := EventsOf(TurnsIn(l.records));
    WitnessAppend(rules, Empty(rules, start), seen, l.room.game.pending);
    RulesAre(rules, Empty(rules, start), seen + l.room.game.pending);
    SeatsAre(rules, Empty(rules, start), seen + l.room.game.pending);
  }
}
