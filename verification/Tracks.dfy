/**
What a queue of messages will make the hook do.

A track is the hook as it will stand once it has run everything released to it:
the last step released and what its world has then done. A queue is sound for a
track when no message in it can break the gate and every world it leads through
does only what its stream performs. Soundness is kept by pushing what the
follower hands out, by voiding what was not sent yet, and by reading.
*/
module Tracks {
  import opened Protocol
  import opened Gate
  import B = Bridge

  /** How far the hook has come in attaching: it reads the agent's hello, then
      waits for the game to begin, then plays. */
  datatype Phase = AwaitHello | AwaitBegin | Playing

  /** A world loaded at `at`, the turns its stream has carried since, and the snapshot
      it is of, if not the first world. */
  datatype World = World(at: Cursor, taken: seq<Turn>, from: Option<nat>)

  function Holding(file: Option<File>): Option<nat> {
    if file.Some? then Some(file.value.snapshot) else None
  }

  datatype Track = Track(phase: Phase, released: nat, world: seq<Action>)

  function Deeds(w: World): seq<Action> {
    Perform(w.at, w.taken)
  }

  /** The message has its place when the hook reads it on this track. */
  predicate Legal(tr: Track, m: ToHook) {
    match m
    case Hello => tr.phase.AwaitHello?
    case BeginGame => tr.phase.AwaitBegin?
    case ApplyEvent(event) => tr.phase.Playing? && event.step == tr.released + 1
    case Release(through) => tr.phase.Playing? && through >= tr.released
    case Chat(_, _) => !tr.phase.AwaitHello?
    case _ => tr.phase.Playing?
  }

  function Step(tr: Track, m: ToHook): Track {
    match m
    case Hello => tr.(phase := AwaitBegin)
    case BeginGame => tr.(phase := Playing)
    case ApplyEvent(event) => tr.(world := tr.world + [Apply(event)])
    case Release(through) => tr.(released := through, world := tr.world + Steps(tr.released, through))
    case Load(_, nextStep) => Track(Playing, if nextStep == 0 then 0 else nextStep - 1, [])
    case _ => tr
  }

  function Follow(tr: Track, queue: seq<ToHook>): Track
    decreases |queue|
  {
    if queue == [] then tr else Follow(Step(tr, queue[0]), queue[1..])
  }

  ghost predicate Sound(tr: Track, queue: seq<ToHook>, worlds: seq<World>)
    decreases |queue|
  {
    && worlds != []
    && tr.world <= Deeds(worlds[0])
    && if queue == [] then |worlds| == 1
       else
         && Legal(tr, queue[0])
         && if queue[0].Load? then
              && |worlds| >= 2 && queue[0].nextStep == worlds[1].at.sealed + 1
              && Holding(queue[0].file) == worlds[1].from
              && Sound(Step(tr, queue[0]), queue[1..], worlds[1..])
            else
              Sound(Step(tr, queue[0]), queue[1..], worlds)
  }

  function LoadsIn(queue: seq<ToHook>): seq<nat> {
    if queue == [] then []
    else (if queue[0].Load? then [queue[0].nextStep] else []) + LoadsIn(queue[1..])
  }

  lemma {:induction false} FollowPush(tr: Track, queue: seq<ToHook>, m: ToHook)
    ensures Follow(tr, queue + [m]) == Step(Follow(tr, queue), m)
    decreases |queue|
  {
    if queue == [] {
      assert queue + [m] == [m];
    } else {
      FollowPush(Step(tr, queue[0]), queue[1..], m);
      assert (queue + [m])[1..] == queue[1..] + [m];
    }
  }

  /** A message with its place at the end of a sound queue keeps it sound. */
  lemma {:induction false} SoundPush(tr: Track, queue: seq<ToHook>, worlds: seq<World>, m: ToHook)
    requires Sound(tr, queue, worlds) && !m.Load?
    requires Legal(Follow(tr, queue), m)
    requires Step(Follow(tr, queue), m).world <= Deeds(Last(worlds))
    ensures Sound(tr, queue + [m], worlds)
    decreases |queue|
  {
    if queue == [] {
      assert queue + [m] == [m] && [m][1..] == [];
    } else {
      assert (queue + [m])[1..] == queue[1..] + [m];
      if queue[0].Load? {
        SoundPush(Step(tr, queue[0]), queue[1..], worlds[1..], m);
      } else {
        SoundPush(Step(tr, queue[0]), queue[1..], worlds, m);
      }
    }
  }

  /** Ordering a load starts a new world. */
  lemma {:induction false} SoundLoad(tr: Track, queue: seq<ToHook>, worlds: seq<World>, file: Option<File>, w: World)
    requires Sound(tr, queue, worlds) && Holding(file) == w.from
    requires Follow(tr, queue).phase.Playing?
    ensures Sound(tr, queue + [Load(file, w.at.sealed + 1)], worlds + [w])
    decreases |queue|
  {
    var m := Load(file, w.at.sealed + 1);
    if queue == [] {
      assert queue + [m] == [m] && [m][1..] == [];
      assert (worlds + [w])[1..] == [w] && (worlds + [w])[0] == worlds[0];
    } else {
      assert (queue + [m])[1..] == queue[1..] + [m];
      if queue[0].Load? {
        SoundLoad(Step(tr, queue[0]), queue[1..], worlds[1..], file, w);
        assert (worlds + [w])[1..] == worlds[1..] + [w];
      } else {
        SoundLoad(Step(tr, queue[0]), queue[1..], worlds, file, w);
      }
    }
  }

  /** The last world's stream carries another turn. */
  lemma {:induction false} SoundGrow(tr: Track, queue: seq<ToHook>, worlds: seq<World>, turn: Turn)
    requires Sound(tr, queue, worlds)
    ensures Sound(tr, queue, Init(worlds) + [Grown(Last(worlds), turn)])
    decreases |queue|
  {
    var grown := Init(worlds) + [Grown(Last(worlds), turn)];
    GrownDoesMore(worlds[0], turn);
    if |worlds| == 1 { assert grown[0] == Grown(worlds[0], turn); } else { assert grown[0] == worlds[0]; }
    if queue != [] {
      if queue[0].Load? {
        SoundGrow(Step(tr, queue[0]), queue[1..], worlds[1..], turn);
        assert grown[1..] == Init(worlds[1..]) + [Grown(Last(worlds[1..]), turn)];
      } else {
        SoundGrow(Step(tr, queue[0]), queue[1..], worlds, turn);
      }
    }
  }

  function Grown(w: World, turn: Turn): World {
    w.(taken := w.taken + [turn])
  }

  lemma GrownDoesMore(w: World, turn: Turn)
    ensures Deeds(w) <= Deeds(Grown(w, turn))
  {
    ChainPush(w.at, w.taken, turn);
  }

  /** Voiding what waits in the outbox leaves the worlds already sent. */
  lemma {:induction false} SoundVoid(tr: Track, sent: seq<ToHook>, outbox: seq<ToHook>, worlds: seq<World>)
    requires Sound(tr, sent + outbox, worlds)
    ensures |LoadsIn(sent)| < |worlds|
    ensures Sound(tr, sent + B.Retain(outbox), worlds[..1 + |LoadsIn(sent)|])
    ensures Follow(tr, sent + B.Retain(outbox)).phase == Follow(tr, sent + outbox).phase
    decreases |sent|
  {
    if sent == [] {
      assert sent + outbox == outbox && sent + B.Retain(outbox) == B.Retain(outbox);
      SoundRetain(tr, outbox, worlds, tr, worlds[0]);
      assert worlds[..1] == [worlds[0]];
    } else {
      assert (sent + outbox)[1..] == sent[1..] + outbox;
      assert (sent + B.Retain(outbox))[1..] == sent[1..] + B.Retain(outbox);
      if sent[0].Load? {
        SoundVoid(Step(tr, sent[0]), sent[1..], outbox, worlds[1..]);
        assert worlds[..1 + |LoadsIn(sent)|][1..] == worlds[1..][..1 + |LoadsIn(sent[1..])|];
      } else {
        SoundVoid(Step(tr, sent[0]), sent[1..], outbox, worlds);
      }
    }
  }

  /** What is left of a sound queue once its worlds are voided is sound on any
      track of the same phase: none of it acts on a world. */
  lemma {:induction false} SoundRetain(tr: Track, outbox: seq<ToHook>, worlds: seq<World>, other: Track, w: World)
    requires Sound(tr, outbox, worlds)
    requires other.phase == tr.phase && other.world <= Deeds(w)
    ensures Sound(other, B.Retain(outbox), [w])
    ensures Follow(other, B.Retain(outbox)).phase == Follow(tr, outbox).phase
    decreases |outbox|
  {
    if outbox != [] {
      var m, rest := outbox[0], if outbox[0].Load? then worlds[1..] else worlds;
      if B.OfWorld(m) {
        SoundRetain(Step(tr, m), outbox[1..], rest, other, w);
        assert [] + B.Retain(outbox[1..]) == B.Retain(outbox[1..]);
      } else {
        SoundRetain(Step(tr, m), outbox[1..], rest, Step(other, m), w);
        assert ([m] + B.Retain(outbox[1..]))[1..] == B.Retain(outbox[1..]);
      }
    }
  }
}
