/**
  The pipeline as one stream of instructions.  On a serial port everything after the enqueue
  runs on the strand; on the other kinds that is so when only the strand writes, as from a
  receive callback.  There the in-progress flag is enough, whatever the messages are.
 */
module PumpStrand {
  import opened Streams
  import opened PumpCore
  import opened Pump

  predicate OffStrand(kind: Kind, pc: PC) {
    pc.Idle? || (kind.Serial? && (pc.Pushing? || pc.TestingRun? || pc.Posting?))
  }

  /** Off the strand nobody gets past the enqueue and the post; on it, whoever is past the
      flag finds nothing in flight. */
  ghost predicate OneStream(s: State) {
    && (forall a: nat :: a != STRAND ==> OffStrand(s.kind, PcOf(s, a)))
    && (PcOf(s, STRAND).Inside? <==> !s.core.section.Unlocked?)
    && (PcOf(s, STRAND).Handling? <==> !s.core.handler.NotRunning?)
    && |s.core.inFlight| <= 1
    && (s.core.inFlight != [] || s.core.section.Sending? ==> s.core.inProgress)
    && (PcOf(s, STRAND).Locking? || PcOf(s, STRAND).Handling? ==> s.core.inFlight == [])
    && (PcOf(s, STRAND).Inside? && !s.core.section.Unlocking? ==> s.core.inFlight == [])
  }

  /** The step is not the write of a caller that would go on to send by itself. */
  predicate OnStream(kind: Kind, st: Step) {
    st.Begin? ==> kind.Serial? || st.a == STRAND
  }

  lemma StepKeepsStream(s: State, st: Step)
    requires OneStream(s) && Enabled(s, st) && OnStream(s.kind, st)
    ensures OneStream(Next(s, st))
  {
    OthersStay(s, st);
    if st.Go? {
      if st.a == STRAND {
        StrandKeepsStream(s);
      } else {
        assert OffStrand(s.kind, PcOf(s, st.a));
      }
    }
  }

  lemma StrandKeepsStream(s: State)
    requires OneStream(s) && Enabled(s, Go(STRAND))
    ensures OneStream(Next(s, Go(STRAND)))
  {
    OthersStay(s, Go(STRAND));
    if PcOf(s, STRAND).Inside? {
      StrandInsideKeepsStream(s);
    } else if PcOf(s, STRAND).Handling? {
      StrandHandlingKeepsStream(s);
    }
  }

  lemma StrandInsideKeepsStream(s: State)
    requires OneStream(s) && Enabled(s, Go(STRAND)) && PcOf(s, STRAND).Inside?
    ensures OneStream(Next(s, Go(STRAND)))
  {
    OthersStay(s, Go(STRAND));
    var c := After(s.core, Hold);
    assert Next(s, Go(STRAND)).core == c;
  }

  lemma StrandHandlingKeepsStream(s: State)
    requires OneStream(s) && Enabled(s, Go(STRAND)) && PcOf(s, STRAND).Handling?
    ensures OneStream(Next(s, Go(STRAND)))
  {
    OthersStay(s, Go(STRAND));
    var c := After(s.core, Handle);
    assert Next(s, Go(STRAND)).core == c && c.section == s.core.section && c.inFlight == s.core.inFlight;
  }

  /** One stream, and the conservation that comes with it for any messages. */
  ghost predicate StreamInv(s: State) {
    OneStream(s) && Conserved(s.core)
  }

  lemma StepKeepsStreamInv(s: State, st: Step)
    requires StreamInv(s) && Enabled(s, st) && OnStream(s.kind, st)
    ensures StreamInv(Next(s, st))
  {
    StepKeepsStream(s, st);
    if Next(s, st).core != s.core {
      assert NotMisled(s.core);
      KeepsConserved(s.core, EventOf(s, st));
    }
  }

  lemma {:induction false} RunKeepsStreamInv(s: State, steps: seq<Step>)
    requires StreamInv(s) && Legal(s, steps) && forall i :: 0 <= i < |steps| ==> OnStream(s.kind, steps[i])
    ensures StreamInv(Exec(s, steps))
    decreases |steps|
  {
    if steps != [] {
      assert OnStream(s.kind, steps[0]);
      StepKeepsStreamInv(s, steps[0]);
      RunKeepsStreamInv(Next(s, steps[0]), steps[1..]);
    }
  }

  /** Every reachable state of a serial port. */
  lemma SerialStreamInv(steps: seq<Step>)
    requires Legal(Init(Serial), steps)
    ensures StreamInv(Exec(Init(Serial), steps))
  {
    RunKeepsStreamInv(Init(Serial), steps);
  }
}
