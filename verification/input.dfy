/** What the game loop reads from pygame each iteration: the pressed arrow keys and the event queue. */
module Input {

  /** The four entries of pygame.key.get_pressed() that the players read. */
  datatype Keys = Keys(up: bool, down: bool, left: bool, right: bool)

  /** One entry of pygame.event.get(). The boulder timer's event carries the random
      draws made when it is handled (`D` is what the program draws per boulder). */
  datatype Event<D> = Quit | KeyDown(escape: bool) | AddBoulder(draw: D) | Other

  /** Whether an event stops the loop: the window's close button or the Escape key. */
  predicate Stops<D>(e: Event<D>)
  {
    e.Quit? || (e.KeyDown? && e.escape)
  }

  /** Whether some event of the batch stops the loop. */
  predicate StopRequested<D>(events: seq<Event<D>>)
  {
    exists i :: 0 <= i < |events| && Stops(events[i])
  }

  /** The draws of the boulder-timer events, in queue order. */
  function Spawns<D(==)>(events: seq<Event<D>>): (draws: seq<D>)
    ensures |draws| <= |events|
    ensures forall d :: d in draws ==> AddBoulder(d) in events
  {
    if events == [] then []
    else
      var last := events[|events| - 1];
      Spawns(events[..|events| - 1]) + (if last.AddBoulder? then [last.draw] else [])
  }

  /** The positions of the boulder-timer events in the queue, in order. */
  function Timers<D>(events: seq<Event<D>>): seq<nat>
  {
    if events == [] then []
    else
      var n := |events| - 1;
      Timers(events[..n]) + (if events[n].AddBoulder? then [n] else [])
  }

  /** Draw j is the draw of the j-th timer event of the queue: every draw comes from its own
      timer event, in queue order. */
  lemma {:induction false} TimersExact<D>(events: seq<Event<D>>)
    ensures |Timers(events)| == |Spawns(events)|
    ensures forall j :: 0 <= j < |Timers(events)| ==>
      Timers(events)[j] < |events| && events[Timers(events)[j]].AddBoulder? &&
      Spawns(events)[j] == events[Timers(events)[j]].draw
    ensures forall j, k :: 0 <= j < k < |Timers(events)| ==> Timers(events)[j] < Timers(events)[k]
  {
    if events != [] {
      var n := |events| - 1;
      var init := events[..n];
      TimersExact(init);
      var ix0, ix := Timers(init), Timers(events);
      var draws0, draws := Spawns(init), Spawns(events);
      assert ix == ix0 + (if events[n].AddBoulder? then [n] else []);
      assert draws == draws0 + (if events[n].AddBoulder? then [events[n].draw] else []);
      forall j | 0 <= j < |ix|
        ensures ix[j] < |events| && events[ix[j]].AddBoulder? && draws[j] == events[ix[j]].draw
      {
        if j < |ix0| {
          assert ix[j] == ix0[j] && draws[j] == draws0[j];
          assert init[ix0[j]] == events[ix0[j]];
        }
      }
      forall j, k | 0 <= j < k < |ix|
        ensures ix[j] < ix[k]
      {
        assert ix[j] == ix0[j] && ix0[j] < |init|;
      }
    }
  }

  /** No timer event is skipped: the position of every timer event of the queue is listed. */
  lemma {:induction false} TimersComplete<D>(events: seq<Event<D>>)
    ensures forall n :: 0 <= n < |events| && events[n].AddBoulder? ==> n in Timers(events)
  {
    if events != [] {
      var n := |events| - 1;
      var init := events[..n];
      TimersComplete(init);
      var ix0, ix := Timers(init), Timers(events);
      assert ix == ix0 + (if events[n].AddBoulder? then [n] else []);
      forall m | 0 <= m < |events| && events[m].AddBoulder?
        ensures m in ix
      {
        if m < n {
          assert init[m] == events[m];
          assert m in ix0;
        } else {
          assert ix[|ix| - 1] == m;
        }
      }
    }
  }

  /** How the stop flag and the draws grow as the event loop handles one more event. */
  lemma HandledOneMore<D>(events: seq<Event<D>>, i: nat)
    requires i < |events|
    ensures StopRequested(events[..i + 1]) <==> StopRequested(events[..i]) || Stops(events[i])
    ensures Spawns(events[..i + 1]) ==
      Spawns(events[..i]) + (if events[i].AddBoulder? then [events[i].draw] else [])
  {
    assert events[..i + 1][..i] == events[..i];
    if Stops(events[i]) {
      assert events[..i + 1][i] == events[i];
    }
  }
}
