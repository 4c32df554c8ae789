/** Edge-triggered alerts: the notifier remembers last cycle's flag and
    raises an alert only when a flag goes from false to true.

    `Memory` is the pair the notifier keeps for one flag: the flag as shown
    (React state) and the remembered previous value (a ref). One refresh
    computes a fresh value `active`, shows it, fires when it is true and the
    remembered value is false, and then updates the memory. Two update rules
    appear in the client:
    - `StepFresh` remembers the freshly computed value; the exceeded alert
      works this way (App.jsx:233);
    - `StepAsWritten` remembers the flag that was shown BEFORE the refresh;
      the 80% alert works this way (App.jsx:234). */
module AlertEdge {

  datatype Memory = Memory(shown: bool, remembered: bool)

  datatype Step = Step(next: Memory, fired: bool)

  const Initial := Memory(false, false)

  /** The update of App.jsx:230-234 for the exceeded flag. */
  function StepFresh(m: Memory, active: bool): (s: Step)
    ensures s.fired <==> active && !m.remembered
    ensures s.next.shown == active && s.next.remembered == active
  {
    Step(Memory(active, active), active && !m.remembered)
  }

  /** The update of App.jsx:214-217 and 234 for the 80% flag: the ref takes
      the value shown before this refresh, not the fresh one. */
  function StepAsWritten(m: Memory, active: bool): (s: Step)
    ensures s.fired <==> active && !m.remembered
    ensures s.next.shown == active && s.next.remembered == m.shown
  {
    Step(Memory(active, m.shown), active && !m.remembered)
  }

  function StepWith(asWritten: bool, m: Memory, active: bool): Step
  {
    if asWritten then StepAsWritten(m, active) else StepFresh(m, active)
  }

  /** The alerts fired by consecutive refreshes whose fresh values are `actives`. */
  function Fired(asWritten: bool, m: Memory, actives: seq<bool>): (fired: seq<bool>)
    ensures |fired| == |actives|
    decreases |actives|
  {
    if |actives| == 0 then []
    else
      var s := StepWith(asWritten, m, actives[0]);
      [s.fired] + Fired(asWritten, s.next, actives[1..])
  }

  /** With the fresh-value update, refresh i fires exactly when the flag rises
      at i: true now and false at the previous refresh. This is the intent
      stated at App.jsx:216. */
  lemma {:induction false} FreshFiresOnRisingEdges(m: Memory, actives: seq<bool>)
    ensures |Fired(false, m, actives)| == |actives|
    ensures |actives| > 0 ==> Fired(false, m, actives)[0] == (actives[0] && !m.remembered)
    ensures forall i :: 0 < i < |actives| ==>
      Fired(false, m, actives)[i] == (actives[i] && !actives[i - 1])
    decreases |actives|
  {
    if |actives| > 0 {
      var s := StepFresh(m, actives[0]);
      var rest := Fired(false, s.next, actives[1..]);
      assert Fired(false, m, actives) == [s.fired] + rest;
      assert Fired(false, m, actives)[0] == s.fired == (actives[0] && !m.remembered);
      if |actives| > 1 {
        FreshFiresOnRisingEdges(s.next, actives[1..]);
        forall i | 0 < i < |actives|
          ensures Fired(false, m, actives)[i] == (actives[i] && !actives[i - 1])
        {
          assert Fired(false, m, actives)[i] == rest[i - 1];
          assert actives[1..][i - 1] == actives[i];
          if i > 1 {
            assert actives[1..][i - 2] == actives[i - 1];
          }
        }
      }
    }
  }

  /** As written, the 80% alert compares with the flag two refreshes back:
      refresh i >= 2 fires when the flag is true now and was false two
      refreshes earlier, so the alert lags one cycle behind the flag. */
  lemma {:induction false} AsWrittenComparesTwoBack(m: Memory, actives: seq<bool>)
    ensures |Fired(true, m, actives)| == |actives|
    ensures |actives| > 0 ==> Fired(true, m, actives)[0] == (actives[0] && !m.remembered)
    ensures |actives| > 1 ==> Fired(true, m, actives)[1] == (actives[1] && !m.shown)
    ensures forall i :: 1 < i < |actives| ==>
      Fired(true, m, actives)[i] == (actives[i] && !actives[i - 2])
    decreases |actives|
  {
    if |actives| > 0 {
      var s := StepAsWritten(m, actives[0]);
      var rest := Fired(true, s.next, actives[1..]);
      assert Fired(true, m, actives) == [s.fired] + rest;
      assert Fired(true, m, actives)[0] == s.fired == (actives[0] && !m.remembered);
      if |actives| > 1 {
        AsWrittenComparesTwoBack(s.next, actives[1..]);
        assert actives[1..][0] == actives[1];
        forall i | 1 < i < |actives|
          ensures Fired(true, m, actives)[i] == (actives[i] && !actives[i - 2])
        {
          assert Fired(true, m, actives)[i] == rest[i - 1];
          assert actives[1..][i - 1] == actives[i];
          if i > 2 {
            assert actives[1..][i - 3] == actives[i - 2];
          }
        }
      }
    }
  }

  /** Counterexample to the intent at App.jsx:216: with the flag held true
      over two refreshes after a fresh start, the as-written update fires on
      both of them, and only the third is quiet. */
  lemma AsWrittenFiresTwice()
    ensures Fired(true, Initial, [true, true, true]) == [true, true, false]
  {
    AsWrittenComparesTwoBack(Initial, [true, true, true]);
  }

  /** With the fresh-value update, a flag held true for `n` refreshes after a
      fresh start fires once, on the first of them. */
  lemma FreshFiresOnceWhileHeld(n: nat)
    requires n >= 1
    ensures Fired(false, Initial, seq(n, _ => true)) == [true] + seq(n - 1, _ => false)
  {
    var actives := seq(n, _ => true);
    FreshFiresOnRisingEdges(Initial, actives);
    var fired := Fired(false, Initial, actives);
    var expected := [true] + seq(n - 1, _ => false);
    forall i | 0 <= i < n ensures fired[i] == expected[i] {
      if i > 0 {
        assert actives[i] && actives[i - 1];
      }
    }
  }
}
