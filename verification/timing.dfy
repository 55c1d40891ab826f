/** Pulse trains: what repeated clock pulses do to the cycles owed, for any
    pulse function that only counts down while cycles are owed (cpu_clock,
    cpu.c lines 24-44, does so through its final decrement). */
module Timing {
  import opened Cpu

  /** A pulse function that, while cycles are owed, only pays one of them. */
  ghost predicate CountsDown(pulse: State -> State)
  {
    forall t: State :: t.cycles > 0 ==> pulse(t) == t.(cycles := t.cycles - 1)
  }

  /** `n` successive pulses of `pulse`. */
  function Pulses(pulse: State -> State, s: State, n: nat): State
    decreases n
  {
    if n == 0 then s else Pulses(pulse, pulse(s), n - 1)
  }

  /** While cycles are owed, `k` pulses only pay `k` of them. */
  lemma {:induction false} PaysOwedCycles(pulse: State -> State, s: State, k: nat)
    requires CountsDown(pulse)
    requires k <= s.cycles
    ensures Pulses(pulse, s, k) == s.(cycles := s.cycles - k)
    decreases k
  {
    if k > 0 {
      PaysOwedCycles(pulse, pulse(s), k - 1);
    }
  }

  /** A first pulse that leaves `n - 1` cycles owed is followed by `n - 1`
      pulses that only count them down: after `k` pulses the state is the
      first pulse's with `n - k` cycles owed, so the count reaches 0 after
      exactly `n` pulses. */
  lemma {:induction false} CountsDownAfterStart(pulse: State -> State, s: State, n: nat)
    requires CountsDown(pulse)
    requires 0 < n && pulse(s).cycles == n - 1
    ensures forall k :: 0 < k <= n ==> Pulses(pulse, s, k) == pulse(s).(cycles := n - k)
  {
    forall k | 0 < k <= n
      ensures Pulses(pulse, s, k) == pulse(s).(cycles := n - k)
    {
      assert Pulses(pulse, s, k) == Pulses(pulse, pulse(s), k - 1);
      PaysOwedCycles(pulse, pulse(s), k - 1);
    }
  }
}
