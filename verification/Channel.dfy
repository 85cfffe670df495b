/**
 * Channels: senders serialize a value and then append the payload to a shared queue under a lock;
 * receivers take the front payload under the lock and then decode it. Any number of threads may be
 * between the two halves of their operation, and the values they work on may change meanwhile.
 */
module Channel {
  import opened Bytes
  import opened Wire
  import opened ValueCodec

  type Thread = nat

  datatype Option<T> = None | Some(value: T)

  type Payload = seq<byte>

  /** The queue and its flag, the payloads in the hands of threads, and the program's values. */
  datatype State = State(
    queue: seq<Payload>, closed: bool, sending: map<Thread, Payload>, receiving: map<Thread, Payload>, store: map<nat, Plain>)

  /** What a run leaves behind: the values accepted, in order, with what each thread is sending and
      was handed, the number of payloads handed out, and what receivers returned. */
  datatype History = History(
    accepted: seq<Plain>, sendingValue: map<Thread, Plain>, handed: nat, handedIndex: map<Thread, nat>, returned: seq<Returned>,
    acceptedAtClose: Option<nat>)

  /** A receiver's result: the payload it was handed, by number, or null from a closed queue. */
  datatype Returned = Delivered(index: nat, value: Plain) | NullAtEnd

  datatype Step =
    | Assign(ref: nat, v: Plain)
    | BeginSend(t: Thread, ref: nat)
    | EndSend(t: Thread)
    | BeginReceive(t: Thread)
    | EndReceive(t: Thread)
    | Close

  datatype World = World(s: State, h: History)

  const START: World := World(State([], false, map[], map[], map[]), History([], map[], 0, map[], [], None))

  /** A step a thread can take now; a receiver waits while the queue is empty and open. */
  predicate Enabled(w: World, step: Step) {
    match step
    case Assign(_, _) => true
    case BeginSend(t, ref) => ref in w.s.store && t !in w.s.sending
    case EndSend(t) => t in w.s.sending && t in w.h.sendingValue
    case BeginReceive(t) => t !in w.s.receiving && (w.s.queue != [] || w.s.closed)
    case EndReceive(t) => t in w.s.receiving && t in w.h.handedIndex
    case Close => true
  }

  function Decode(p: Payload): Plain { Value(Good(p)).0 }

  function Next(w: World, step: Step): World
    requires Enabled(w, step)
  {
    var (s, h) := (w.s, w.h);
    match step
    case Assign(ref, v) => World(s.(store := s.store[ref := v]), h)
    case BeginSend(t, ref) =>
      World(s.(sending := s.sending[t := Serialized(s.store[ref])]), h.(sendingValue := h.sendingValue[t := s.store[ref]]))
    case EndSend(t) =>
      var idle := s.(sending := s.sending - {t});
      var quiet := h.(sendingValue := h.sendingValue - {t});
      if s.closed then World(idle, quiet)
      else World(idle.(queue := s.queue + [s.sending[t]]), quiet.(accepted := h.accepted + [h.sendingValue[t]]))
    case BeginReceive(t) =>
      if s.queue == [] then World(s, h.(returned := h.returned + [NullAtEnd]))
      else
        World(s.(queue := s.queue[1..], receiving := s.receiving[t := s.queue[0]]),
              h.(handed := h.handed + 1, handedIndex := h.handedIndex[t := h.handed]))
    case EndReceive(t) =>
      World(s.(receiving := s.receiving - {t}),
            h.(handedIndex := h.handedIndex - {t}, returned := h.returned + [Delivered(h.handedIndex[t], Decode(s.receiving[t]))]))
    case Close =>
      World(s.(closed := true), h.(acceptedAtClose := if s.closed then h.acceptedAtClose else Some(|h.accepted|)))
  }

  // ---- What every interleaving keeps ----

  /** The payloads handed out and those in the queue are the accepted values, in order. */
  ghost predicate InOrder(w: World) {
    && |w.h.accepted| == w.h.handed + |w.s.queue|
    && forall i | 0 <= i < |w.s.queue| :: w.s.queue[i] == Serialized(w.h.accepted[w.h.handed + i])
  }

  /** A sender holds the value as it was when the send began. */
  ghost predicate Snapshots(w: World) {
    w.s.sending.Keys == w.h.sendingValue.Keys && forall t | t in w.s.sending :: w.s.sending[t] == Serialized(w.h.sendingValue[t])
  }

  /** A receiver holds the payload it was handed, and no two hold the same. */
  ghost predicate Handed(w: World) {
    && w.s.receiving.Keys == w.h.handedIndex.Keys
    && (forall t | t in w.s.receiving ::
          w.h.handedIndex[t] < w.h.handed <= |w.h.accepted| && w.s.receiving[t] == Serialized(w.h.accepted[w.h.handedIndex[t]]))
    && (forall t, u | t in w.s.receiving && u in w.s.receiving && t != u :: w.h.handedIndex[t] != w.h.handedIndex[u])
  }

  /** What was returned is what was sent, each at most once, and null only after the close. */
  ghost predicate Results(w: World) {
    && (forall i | 0 <= i < |w.h.returned| :: RightResult(w, w.h.returned[i]))
    && (forall i, j | 0 <= i < j < |w.h.returned| && w.h.returned[i].Delivered? && w.h.returned[j].Delivered? ::
          w.h.returned[i].index != w.h.returned[j].index)
    && (forall i, t | 0 <= i < |w.h.returned| && w.h.returned[i].Delivered? && t in w.h.handedIndex ::
          w.h.returned[i].index != w.h.handedIndex[t])
  }

  ghost predicate RightResult(w: World, r: Returned) {
    match r
    case NullAtEnd => w.s.closed
    case Delivered(index, v) => index < w.h.handed <= |w.h.accepted| && v == Decode(Serialized(w.h.accepted[index]))
  }

  /** Nothing is accepted after the close. */
  ghost predicate ClosedForGood(w: World) {
    w.h.acceptedAtClose == if w.s.closed then Some(|w.h.accepted|) else None
  }

  ghost predicate Invariant(w: World) {
    InOrder(w) && Snapshots(w) && Handed(w) && Results(w) && ClosedForGood(w)
  }

  lemma NextInOrder(w: World, step: Step)
    requires Enabled(w, step) && InOrder(w) && Snapshots(w)
    ensures InOrder(Next(w, step))
  {
    hide Serialized, Decode;
  }

  lemma NextSnapshots(w: World, step: Step)
    requires Enabled(w, step) && Snapshots(w)
    ensures Snapshots(Next(w, step))
  {
    hide Serialized, Decode;
  }

  lemma NextHanded(w: World, step: Step)
    requires Enabled(w, step) && InOrder(w) && Handed(w)
    ensures Handed(Next(w, step))
  {
    hide Serialized, Decode;
  }

  lemma NextResults(w: World, step: Step)
    requires Enabled(w, step) && InOrder(w) && Handed(w) && Results(w)
    ensures Results(Next(w, step))
  {
    hide Serialized, Decode;
    var n := Next(w, step);
    forall i | 0 <= i < |n.h.returned| ensures RightResult(n, n.h.returned[i]) {
      if i < |w.h.returned| { assert RightResult(w, w.h.returned[i]); }
    }
    if step.BeginReceive? { FreshIndex(w); }
  }

  /** The next payload has not been returned. */
  lemma FreshIndex(w: World)
    requires Results(w)
    ensures forall i | 0 <= i < |w.h.returned| && w.h.returned[i].Delivered? :: w.h.returned[i].index != w.h.handed
  {
    hide Decode, Serialized;
    forall i | 0 <= i < |w.h.returned| && w.h.returned[i].Delivered? ensures w.h.returned[i].index != w.h.handed {
      assert RightResult(w, w.h.returned[i]);
    }
  }

  lemma StepKeepsInvariant(w: World, step: Step)
    requires Enabled(w, step) && Invariant(w)
    ensures Invariant(Next(w, step))
  {
    hide InOrder, Snapshots, Handed, Results, Next, Enabled;
    NextInOrder(w, step);
    NextSnapshots(w, step);
    NextHanded(w, step);
    NextResults(w, step);
    NextClosed(w, step);
  }

  lemma NextClosed(w: World, step: Step)
    requires Enabled(w, step) && ClosedForGood(w)
    ensures ClosedForGood(Next(w, step))
  {
    hide Serialized, Decode;
  }

  /** Every step of the run is enabled when its turn comes. */
  predicate CanRun(w: World, steps: seq<Step>)
    decreases |steps|
  {
    steps == [] || (Enabled(w, steps[0]) && CanRun(Next(w, steps[0]), steps[1..]))
  }

  function Run(w: World, steps: seq<Step>): World
    requires CanRun(w, steps)
    decreases |steps|
  {
    if steps == [] then w else Run(Next(w, steps[0]), steps[1..])
  }

  lemma {:induction false} RunKeepsInvariant(w: World, steps: seq<Step>)
    requires CanRun(w, steps) && Invariant(w)
    ensures Invariant(Run(w, steps))
    decreases |steps|
  {
    hide Invariant, Enabled, Next;
    if steps != [] {
      StepKeepsInvariant(w, steps[0]);
      RunKeepsInvariant(Next(w, steps[0]), steps[1..]);
    }
  }

  /**
   * In every interleaving: a delivered value is the accepted value of its number as it was when its
   * send began, if it was data; no accepted value is delivered twice; null is returned only once the
   * channel is closed; and then no further value is accepted.
   */
  lemma EveryRun(steps: seq<Step>, i: nat, j: nat)
    requires CanRun(START, steps)
    ensures var w := Run(START, steps);
            && InOrder(w) && ClosedForGood(w)
            && (i < |w.h.returned| && w.h.returned[i].Delivered? ==>
                  var r := w.h.returned[i];
                  r.index < |w.h.accepted| && (Fits(w.h.accepted[r.index]) ==> r.value == w.h.accepted[r.index]))
            && (i < j < |w.h.returned| && w.h.returned[i].Delivered? && w.h.returned[j].Delivered? ==>
                  w.h.returned[i].index != w.h.returned[j].index)
            && (i < |w.h.returned| && w.h.returned[i].NullAtEnd? ==> w.s.closed)
  {
    hide CanRun, Run, Fits, Value, Serialized;
    RunKeepsInvariant(START, steps);
    var w := Run(START, steps);
    if i < |w.h.returned| {
      var r := w.h.returned[i];
      assert RightResult(w, r);
      if r.Delivered? { DecodesBack(w.h.accepted[r.index]); }
    }
  }

  lemma DecodesBack(v: Plain)
    ensures Fits(v) ==> Decode(Serialized(v)) == v
  {
    hide Fits, Value, Serialized;
    if Fits(v) {
      ReadsBack(v, []);
      assert Serialized(v) + [] == Serialized(v);
    }
  }

  // ---- The channel object ----

  /** One method for each half of an operation; each half that touches the queue runs under the lock. */
  class ObjChannel {
    var queue: seq<Payload>
    var closed: bool

    constructor ()
      ensures queue == [] && !closed
    {
      queue, closed := [], false;
    }

    /** The half of a send before the lock. */
    static method PreparePayload(v: Plain) returns (payload: Payload)
      ensures payload == Serialized(v)
    {
      var out := new OutStream();
      SerializeValue(out, v);
      payload := out.bytes;
      assert [] + Serialized(v) == Serialized(v);
    }

    /** The half under the lock: a closed channel drops the payload. */
    method Enqueue(payload: Payload, ghost w: World, ghost t: Thread)
      requires w.s.queue == queue && w.s.closed == closed && Enabled(w, EndSend(t)) && w.s.sending[t] == payload
      modifies this
      ensures queue == Next(w, EndSend(t)).s.queue && closed == Next(w, EndSend(t)).s.closed
    {
      if closed { return; }
      queue := queue + [payload];
    }

    /** The half of a receive under the lock, once there is something to take or the channel is closed. */
    method Dequeue(ghost w: World, ghost t: Thread) returns (payload: Option<Payload>)
      requires w.s.queue == queue && w.s.closed == closed && Enabled(w, BeginReceive(t))
      modifies this
      ensures queue == Next(w, BeginReceive(t)).s.queue && closed == Next(w, BeginReceive(t)).s.closed
      ensures payload == if old(queue) == [] then None else Some(Next(w, BeginReceive(t)).s.receiving[t])
    {
      if queue == [] && closed { return None; }
      payload := Some(queue[0]);
      queue := queue[1..];
    }

    /** The half of a receive after the lock. */
    static method DecodePayload(payload: Payload) returns (v: Plain)
      ensures v == Decode(payload)
    {
      var input := new InStream(payload);
      v := DeserializeValue(input);
    }

    method CloseChannel(ghost w: World)
      requires w.s.queue == queue && w.s.closed == closed
      modifies this
      ensures queue == Next(w, Close).s.queue && closed == Next(w, Close).s.closed
    {
      closed := true;
    }
  }
}
