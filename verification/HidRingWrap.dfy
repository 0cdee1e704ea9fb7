/**
 Why a producer's delay is bounded: a run in which one producer is suspended while the others claim 2^32 tickets.
 The word it compares has then come round again, on a full ring.
 */
module HidRingWrap {
  import opened HidRing

  /** The steps lead from one state to the other. */
  ghost predicate Path(s: State, steps: seq<Step>, t: State)
    decreases |steps|
  {
    if steps == [] then s == t
    else |s.slots| == N && Enabled(s, steps[0]) && Path(Do(s, steps[0]), steps[1..], t)
  }

  lemma One(s: State, step: Step)
    requires |s.slots| == N && Enabled(s, step)
    ensures Path(s, [step], Do(s, step))
  {
    assert [step][1..] == [];
  }

  lemma {:induction false} Join(s: State, a: seq<Step>, t: State, b: seq<Step>, u: State)
    requires Path(s, a, t) && Path(t, b, u)
    ensures Path(s, a + b, u)
    decreases |a|
  {
    hide Do, Enabled;
    if a == [] {
      assert a + b == b;
    } else {
      assert (a + b)[1..] == a[1..] + b;
      Join(Do(s, a[0]), a[1..], t, b, u);
    }
  }

  /** One more step at the end. */
  lemma Snoc(s: State, a: seq<Step>, t: State, step: Step)
    requires Path(s, a, t) && |t.slots| == N && Enabled(t, step)
    ensures Path(s, a + [step], Do(t, step))
  {
    hide Do, Enabled, Path;
    One(t, step);
    Join(s, a, t, [step], Do(t, step));
  }

  lemma {:induction false} PathInv(s: State, steps: seq<Step>, t: State)
    requires Inv(s) && Path(s, steps, t)
    ensures Inv(t)
    decreases |steps|
  {
    hide Do, Enabled, Inv;
    if steps != [] {
      InvStep(s, steps[0]);
      PathInv(Do(s, steps[0]), steps[1..], t);
    }
  }

  lemma {:induction false} PathTrace(s: State, steps: seq<Step>, t: State) returns (trace: seq<State>)
    requires Path(s, steps, t)
    ensures |trace| == |steps| + 1 && trace[0] == s && trace[|steps|] == t
    ensures forall i :: 0 <= i < |steps| ==> Follows(trace[i], steps[i], trace[i + 1])
    decreases |steps|
  {
    hide Do, Enabled;
    if steps == [] {
      trace := [s];
    } else {
      var rest := PathTrace(Do(s, steps[0]), steps[1..], t);
      trace := [s] + rest;
      forall i | 0 <= i < |steps| ensures Follows(trace[i], steps[i], trace[i + 1]) {
        if i > 0 { assert Follows(rest[i - 1], steps[1..][i - 1], rest[i - 1 + 1]); }
      }
    }
  }

  ghost predicate Follows(s: State, step: Step, t: State) { |s.slots| == N && Enabled(s, step) && t == Do(s, step) }

  /** Nothing is going on except that producer 0 is suspended before its compare-and-swap. */
  ghost predicate Suspended(s: State, cells: Record) {
    Inv(s) && s.consumer.Resting? && s.producers == map[0 := Checked(cells, true, 0, 0, 0)]
  }

  lemma RoomInWords(claimed: nat, retired: nat)
    requires retired <= claimed < retired + N
    ensures HasRoom(Word(claimed), Word(retired), true)
  {
  }

  /** Producer 1 copies the rest of its record. */
  lemma {:induction false} WriteRest(s: State, done: nat, rec: Record, ticket: nat) returns (steps: seq<Step>, t: State)
    requires |s.slots| == N && 1 in s.producers && s.producers[1] == Writing(rec, ticket, done) && done <= CELLS
    ensures Path(s, steps, t) && |t.slots| == N
    ensures t == s.(slots := t.slots, producers := s.producers[1 := Writing(rec, ticket, CELLS)])
    decreases CELLS - done
  {
    if done == CELLS {
      steps, t := [], s;
      assert s.producers[1 := Writing(rec, ticket, CELLS)] == s.producers;
    } else {
      var u := Do(s, WriteCell(1));
      One(s, WriteCell(1));
      var rest: seq<Step>;
      rest, t := WriteRest(u, done + 1, rec, ticket);
      assert s.producers[1 := Writing(rec, ticket, done + 1)][1 := Writing(rec, ticket, CELLS)] == s.producers[1 := Writing(rec, ticket, CELLS)];
      hide Path, Do;
      Join(s, [WriteCell(1)], u, rest, t);
      steps := [WriteCell(1)] + rest;
    }
  }

  /** Producer 1 claims a ticket. */
  lemma Claim(s: State, cells: Record) returns (steps: seq<Step>, t: State)
    requires Suspended(s, cells) && s.claimed < s.retired + N
    ensures Path(s, steps, t) && |t.slots| == N
    ensures t == s.(producers := s.producers[1 := Writing(cells, s.claimed, 0)], writePos := t.writePos,
                    claimed := s.claimed + 1, accepted := s.accepted + [cells])
  {
    RoomInWords(s.claimed, s.retired);
    var a := Do(s, Call(1, cells, true));
    One(s, Call(1, cells, true));
    var b := Do(a, LoadWrite(1));
    Snoc(s, [Call(1, cells, true)], a, LoadWrite(1));
    var c := Do(b, LoadRead(1));
    Snoc(s, [Call(1, cells, true)] + [LoadWrite(1)], b, LoadRead(1));
    hide Path;
    t := Do(c, Cas(1));
    steps := [Call(1, cells, true)] + [LoadWrite(1)] + [LoadRead(1)] + [Cas(1)];
    Snoc(s, [Call(1, cells, true)] + [LoadWrite(1)] + [LoadRead(1)], c, Cas(1));
  }

  lemma Push(s: State, cells: Record) returns (steps: seq<Step>, t: State)
    requires Suspended(s, cells) && s.claimed < s.retired + N
    ensures Path(s, steps, t) && Suspended(t, cells) && t.claimed == s.claimed + 1 && t.retired == s.retired
  {
    var a, b, u, v;
    a, u := Claim(s, cells);
    b, v := WriteRest(u, 0, cells, s.claimed);
    t := Do(v, Publish(1));
    hide Path;
    Join(s, a, u, b, v);
    Snoc(s, a + b, v, Publish(1));
    steps := a + b + [Publish(1)];
    assert t.producers == s.producers;
    PathInv(s, steps, t);
    hide Inv;
  }

  /** The sender copies the rest of the record it peeks at. */
  lemma {:induction false} PeekRest(s: State) returns (steps: seq<Step>, t: State)
    requires |s.slots| == N && s.consumer.Copying? && |s.consumer.part| <= CELLS
    ensures Path(s, steps, t) && t.consumer.Copying? && |t.consumer.part| == CELLS
    ensures t == s.(consumer := Copying(s.consumer.read, s.consumer.batch, t.consumer.part))
    decreases CELLS - |s.consumer.part|
  {
    if |s.consumer.part| == CELLS {
      steps, t := [], s;
    } else {
      var u := Do(s, PeekCell);
      One(s, PeekCell);
      var rest: seq<Step>;
      rest, t := PeekRest(u);
      hide Path, Do;
      Join(s, [PeekCell], u, rest, t);
      steps := [PeekCell] + rest;
    }
  }

  lemma NobodyWrites(s: State, cells: Record)
    requires Suspended(s, cells)
    ensures forall t: nat :: !Held(s.producers, t)
  {
  }

  /** With one record in the ring its stamp is right and the next slot's is not. */
  lemma OneReady(s: State, cells: Record)
    requires Suspended(s, cells) && s.claimed == s.retired + 1
    ensures |s.slots| == N && s.readPos == Word(s.retired)
    ensures s.slots[Index(Word(s.readPos))].stamp == Word(s.readPos + 1)
    ensures s.slots[Index(Word(s.readPos + 1))].stamp != Word(s.readPos + 2)
  {
    NobodyWrites(s, cells);
    assert Ready(s, s.retired);
    WordIndex(s.retired);
    WordIndex(s.retired + 1);
    WordAdd(s.retired, 0);
    WordAdd(s.retired, 1);
    WordAdd(s.retired, 2);
    NextWord(s.retired + 1);
  }

  lemma NextWord(t: nat)
    ensures Word(t) != Word(t + 1)
  {
  }

  /** The sender finds the one record there is, copies it, and finds no second one. */
  lemma Peek(s: State, cells: Record) returns (steps: seq<Step>, t: State)
    requires Suspended(s, cells) && s.claimed == s.retired + 1
    ensures Path(s, steps, t) && |t.slots| == N && t == s.(consumer := t.consumer)
    ensures t.consumer.Peeked? && |t.consumer.batch| == 1
  {
    OneReady(s, cells);
    var a, b := FindFirst(s);
    var rest, c := PeekRest(b);
    var d, e := FindNoSecond(c);
    hide Path, Inv, Suspended;
    Join(s, a, b, rest, c);
    Join(s, a + rest, c, d, e);
    steps, t := a + rest + d, e;
  }

  lemma FindFirst(s: State) returns (steps: seq<Step>, t: State)
    requires |s.slots| == N && s.consumer.Resting? && s.slots[Index(Word(s.readPos))].stamp == Word(s.readPos + 1)
    ensures Path(s, steps, t) && t == s.(consumer := Copying(s.readPos, [], []))
  {
    var a := Do(s, PeekStart);
    One(s, PeekStart);
    t := Do(a, PeekCheck);
    hide Path;
    Snoc(s, [PeekStart], a, PeekCheck);
    steps := [PeekStart] + [PeekCheck];
  }

  lemma FindNoSecond(s: State) returns (steps: seq<Step>, t: State)
    requires |s.slots| == N && s.consumer.Copying? && s.consumer.read == s.readPos && s.consumer.batch == [] && |s.consumer.part| == CELLS
    requires s.slots[Index(Word(s.readPos + 1))].stamp != Word(s.readPos + 2)
    ensures Path(s, steps, t) && t == s.(consumer := Peeked([s.consumer.part]))
  {
    var a := Do(s, PeekNext);
    One(s, PeekNext);
    assert [] + [s.consumer.part] == [s.consumer.part];
    assert a.consumer == Peeking(s.readPos, [s.consumer.part]);
    t := Do(a, PeekCheck);
    hide Path;
    Snoc(s, [PeekNext], a, PeekCheck);
    steps := [PeekNext] + [PeekCheck];
  }

  /** The sender has submitted one record and takes it out. */
  lemma Consume(s: State) returns (steps: seq<Step>, t: State)
    requires |s.slots| == N && s.consumer.Peeked? && |s.consumer.batch| == 1
    ensures Path(s, steps, t) && t.consumer.Resting? && t.producers == s.producers
    ensures t.claimed == s.claimed && t.retired == s.retired + 1
  {
    var b := Do(s, SubmitDone);
    One(s, SubmitDone);
    hide Path;
    var c := Do(b, Stamp);
    Snoc(s, [SubmitDone], b, Stamp);
    var d := Do(c, Advance);
    Snoc(s, [SubmitDone] + [Stamp], c, Advance);
    t := Do(d, ConsumeEnd);
    Snoc(s, [SubmitDone] + [Stamp] + [Advance], d, ConsumeEnd);
    steps := [SubmitDone] + [Stamp] + [Advance] + [ConsumeEnd];
  }

  lemma Drain(s: State, cells: Record) returns (steps: seq<Step>, t: State)
    requires Suspended(s, cells) && s.claimed == s.retired + 1
    ensures Path(s, steps, t) && Suspended(t, cells) && t.claimed == s.claimed && t.retired == s.retired + 1
  {
    var a, u := Peek(s, cells);
    var b, v := Consume(u);
    hide Path, Inv;
    Join(s, a, u, b, v);
    steps, t := a + b, v;
    PathInv(s, steps, t);
  }

  /** `k` records pass through an empty ring, one after another. */
  lemma {:induction false} Spin(s: State, cells: Record, k: nat) returns (steps: seq<Step>, t: State)
    requires Suspended(s, cells) && s.claimed == s.retired
    ensures Path(s, steps, t) && Suspended(t, cells) && t.claimed == t.retired == s.claimed + k
  {
    if k == 0 {
      steps, t := [], s;
    } else {
      var a, u := Spin(s, cells, k - 1);
      var b, v := Push(u, cells);
      var c, x := Drain(v, cells);
      hide Path, Suspended;
      Join(s, a, u, b, v);
      Join(s, a + b, v, c, x);
      steps, t := a + b + c, x;
    }
  }

  lemma {:induction false} FillUp(s: State, cells: Record, k: nat) returns (steps: seq<Step>, t: State)
    requires Suspended(s, cells) && s.claimed + k <= s.retired + N
    ensures Path(s, steps, t) && Suspended(t, cells) && t.claimed == s.claimed + k && t.retired == s.retired
  {
    if k == 0 {
      steps, t := [], s;
    } else {
      var a, u := FillUp(s, cells, k - 1);
      var b, v := Push(u, cells);
      hide Path, Suspended;
      Join(s, a, u, b, v);
      steps, t := a + b, v;
    }
  }

  lemma Suspend(cells: Record) returns (steps: seq<Step>, t: State)
    ensures Path(Init(cells), steps, t) && Suspended(t, cells) && t.claimed == t.retired == 0
  {
    var s := Init(cells);
    var a := Do(s, Call(0, cells, true));
    One(s, Call(0, cells, true));
    var b := Do(a, LoadWrite(0));
    Snoc(s, [Call(0, cells, true)], a, LoadWrite(0));
    t := Do(b, LoadRead(0));
    Snoc(s, [Call(0, cells, true)] + [LoadWrite(0)], b, LoadRead(0));
    steps := [Call(0, cells, true)] + [LoadWrite(0)] + [LoadRead(0)];
    hide Path;
    InitInv(cells);
    PathInv(s, steps, t);
    hide Inv;
  }

  lemma InitInv(cells: Record)
    ensures Inv(Init(cells))
  {
  }

  /**
   A run of the ring that ends with producer 0 suspended across exactly 2^32 claims: the ring is full, and its
   compare-and-swap would succeed, because the word it compares has come round again.
   */
  lemma FullWrapWouldOverrun(cells: Record) returns (trace: seq<State>, steps: seq<Step>)
    ensures Execution(cells, trace, steps)
    ensures var s := trace[|steps|];
      && 0 in s.producers && s.producers[0].Checked? && s.claimed - s.producers[0].ticket == WORD
      && s.writePos == s.producers[0].pos && s.claimed == s.retired + N
  {
    var a, u := Suspend(cells);
    var b, v := Spin(u, cells, WORD - N);
    var c, t := FillUp(v, cells, N);
    WordsWrap(t, cells);
    hide Path, Suspended, Do, Enabled;
    Join(Init(cells), a, u, b, v);
    Join(Init(cells), a + b, v, c, t);
    steps := a + b + c;
    trace := PathTrace(Init(cells), steps, t);
    forall i | 0 <= i < |steps| ensures |trace[i].slots| == N && Enabled(trace[i], steps[i]) && trace[i + 1] == Do(trace[i], steps[i]) {
      assert Follows(trace[i], steps[i], trace[i + 1]);
    }
  }

  lemma WordsWrap(t: State, cells: Record)
    requires Suspended(t, cells) && t.claimed == WORD
    ensures 0 in t.producers && t.producers[0] == Checked(cells, true, 0, 0, 0) && t.writePos == 0
  {
  }
}
