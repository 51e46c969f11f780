/** The typewriter text cycler: a self-rescheduling step that types the
    current phrase one character at a time, pauses, deletes it one character
    at a time, pauses, and moves on to the next phrase, wrapping after the
    last. The delay a step returns is what it hands to setTimeout. */
module Typewriter {

  const TypeDelay: nat := 100
  const DeleteDelay: nat := 50
  /** Pause with the whole phrase shown, before deleting starts. */
  const ReadPause: nat := 2000
  /** Pause with nothing shown, before the next phrase is typed. */
  const NextPhrasePause: nat := 500

  predicate NonEmptyPhrases(texts: seq<string>)
  {
    |texts| > 0 && forall i :: 0 <= i < |texts| ==> |texts[i]| > 0
  }

  /** The cycler's state: which phrase, how many of its characters are shown,
      and whether the next step deletes. */
  datatype Cursor = Cursor(textIndex: nat, charIndex: nat, deleting: bool)

  /** The states the cycler can be in between steps: typing always has a
      character left to type, deleting always has a character left to delete. */
  predicate Within(texts: seq<string>, c: Cursor)
  {
    c.textIndex < |texts| &&
    (if c.deleting then 0 < c.charIndex <= |texts[c.textIndex]|
     else c.charIndex < |texts[c.textIndex]|)
  }

  /** What one step produces: the next state, the text written to the display
      element and the delay until the following step. */
  datatype Step = Step(next: Cursor, shown: string, delay: nat)

  /** One call of the step. */
  function TypeStep(texts: seq<string>, c: Cursor): (r: Step)
    requires NonEmptyPhrases(texts) && Within(texts, c)
    ensures Within(texts, r.next)
    // the display shows exactly the first charIndex characters of the phrase
    ensures r.shown == texts[r.next.textIndex][..r.next.charIndex]
    // charIndex moves by one, in the direction of the current mode
    ensures r.next.charIndex == if c.deleting then c.charIndex - 1 else c.charIndex + 1
    // the mode switches only at the boundaries
    ensures !c.deleting && r.next.deleting <==> !c.deleting && c.charIndex + 1 == |texts[c.textIndex]|
    ensures c.deleting && !r.next.deleting <==> c.deleting && c.charIndex == 1
    // the phrase advances, wrapping, exactly when deleting reaches zero
    ensures r.next.textIndex == if c.deleting && !r.next.deleting then (c.textIndex + 1) % |texts| else c.textIndex
    // delays: 100 typing, 50 deleting, 2000 at full length, 500 at zero
    ensures r.delay == (if c.deleting then (if r.next.deleting then DeleteDelay else NextPhrasePause)
                        else (if r.next.deleting then ReadPause else TypeDelay))
  {
    var current := texts[c.textIndex];
    if c.deleting then
      var k := c.charIndex - 1;
      if k == 0 then Step(Cursor((c.textIndex + 1) % |texts|, 0, false), current[..k], NextPhrasePause)
      else Step(Cursor(c.textIndex, k, true), current[..k], DeleteDelay)
    else
      var k := c.charIndex + 1;
      if k == |current| then Step(Cursor(c.textIndex, k, true), current[..k], ReadPause)
      else Step(Cursor(c.textIndex, k, false), current[..k], TypeDelay)
  }

  /** The state after n steps. */
  function Iterate(texts: seq<string>, c: Cursor, n: nat): (r: Cursor)
    requires NonEmptyPhrases(texts) && Within(texts, c)
    ensures Within(texts, r)
    decreases n
  {
    if n == 0 then c else Iterate(texts, TypeStep(texts, c).next, n - 1)
  }

  /** The steps taken in n calls: what is displayed and how long each waits. */
  function Trace(texts: seq<string>, c: Cursor, n: nat): (r: seq<Step>)
    requires NonEmptyPhrases(texts) && Within(texts, c)
    ensures |r| == n
    decreases n
  {
    if n == 0 then [] else
      var s := TypeStep(texts, c);
      [s] + Trace(texts, s.next, n - 1)
  }

  /** The i-th entry of a trace is the step taken from the state reached
      after i steps. */
  lemma {:induction false} TraceSteps(texts: seq<string>, c: Cursor, n: nat)
    requires NonEmptyPhrases(texts) && Within(texts, c)
    ensures forall i :: 0 <= i < n ==> Trace(texts, c, n)[i] == TypeStep(texts, Iterate(texts, c, i))
    decreases n
  {
    if n > 0 {
      TraceSteps(texts, TypeStep(texts, c).next, n - 1);
    }
  }

  lemma {:induction false} IterateAdd(texts: seq<string>, c: Cursor, a: nat, b: nat)
    requires NonEmptyPhrases(texts) && Within(texts, c)
    ensures Iterate(texts, c, a + b) == Iterate(texts, Iterate(texts, c, a), b)
    decreases a
  {
    if a > 0 {
      IterateAdd(texts, TypeStep(texts, c).next, a - 1, b);
    }
  }

  /** Typing from k characters reaches the full phrase, now in deleting mode,
      after len - k steps. */
  lemma {:induction false} TypeUp(texts: seq<string>, t: nat, k: nat)
    requires NonEmptyPhrases(texts) && t < |texts| && k < |texts[t]|
    ensures Iterate(texts, Cursor(t, k, false), |texts[t]| - k) == Cursor(t, |texts[t]|, true)
    decreases |texts[t]| - k
  {
    if k + 1 < |texts[t]| {
      TypeUp(texts, t, k + 1);
    }
  }

  /** Deleting from k characters reaches the empty display of the next phrase,
      in typing mode, after k steps. */
  lemma {:induction false} DeleteDown(texts: seq<string>, t: nat, k: nat)
    requires NonEmptyPhrases(texts) && t < |texts| && 0 < k <= |texts[t]|
    ensures Iterate(texts, Cursor(t, k, true), k) == Cursor((t + 1) % |texts|, 0, false)
    decreases k
  {
    if k > 1 {
      DeleteDown(texts, t, k - 1);
    }
  }

  /** Typing a phrase in full and deleting it takes exactly twice its length
      in steps and leaves the cycler at the start of the next phrase. */
  lemma Cycle(texts: seq<string>, t: nat)
    requires NonEmptyPhrases(texts) && t < |texts|
    ensures Iterate(texts, Cursor(t, 0, false), 2 * |texts[t]|) == Cursor((t + 1) % |texts|, 0, false)
  {
    var len := |texts[t]|;
    IterateAdd(texts, Cursor(t, 0, false), len, len);
    TypeUp(texts, t, 0);
    DeleteDown(texts, t, len);
  }

  /** Steps needed to type and delete the k phrases starting at phrase t. */
  function RotationSteps(texts: seq<string>, t: nat, k: nat): nat
    requires t < |texts|
    decreases k
  {
    if k == 0 then 0 else 2 * |texts[t]| + RotationSteps(texts, (t + 1) % |texts|, k - 1)
  }

  /** The phrases are visited in order: after k whole cycles the cycler stands
      at the start of phrase (t + k) mod n. */
  lemma {:induction false} Rotation(texts: seq<string>, t: nat, k: nat)
    requires NonEmptyPhrases(texts) && t < |texts|
    ensures Iterate(texts, Cursor(t, 0, false), RotationSteps(texts, t, k)) == Cursor((t + k) % |texts|, 0, false)
    decreases k
  {
    if k == 0 {
      ModUnique(t, |texts|, 0, t);
    } else {
      var u := (t + 1) % |texts|;
      RotationFirst(texts, t, k);
      Rotation(texts, u, k - 1);
      NextIndexShift(t, k, |texts|);
    }
  }

  /** The first of k cycles brings the cycler to the start of the next phrase. */
  lemma RotationFirst(texts: seq<string>, t: nat, k: nat)
    requires NonEmptyPhrases(texts) && t < |texts| && k > 0
    ensures (t + 1) % |texts| < |texts|
    ensures Iterate(texts, Cursor(t, 0, false), RotationSteps(texts, t, k))
         == Iterate(texts, Cursor((t + 1) % |texts|, 0, false), RotationSteps(texts, (t + 1) % |texts|, k - 1))
  {
    var u := (t + 1) % |texts|;
    var a, b := 2 * |texts[t]|, RotationSteps(texts, u, k - 1);
    IterateAdd(texts, Cursor(t, 0, false), a, b);
    Cycle(texts, t);
  }

  /** Advancing one phrase and then k - 1 more lands where advancing k does. */
  lemma NextIndexShift(t: nat, k: nat, n: nat)
    requires t < n && k > 0
    ensures ((t + 1) % n + (k - 1)) % n == (t + k) % n
  {
    if t + 1 == n {
      ModUnique(n, n, 1, 0);
      ModAddModulus(k - 1, n);
      assert t + k == (k - 1) + n;
    } else {
      ModUnique(t + 1, n, 0, t + 1);
    }
  }

  lemma ModAddModulus(y: nat, n: nat)
    requires n > 0
    ensures (y + n) % n == y % n
  {
    var q, r := y / n, y % n;
    assert y == q * n + r;
    assert y + n == (q + 1) * n + r;
    ModUnique(y + n, n, q + 1, r);
  }

  /** Euclidean remainder is determined by any quotient/remainder split. */
  lemma ModUnique(x: int, n: int, q: int, r: int)
    requires n > 0 && 0 <= r < n && x == q * n + r
    ensures x % n == r
  {
    var q0, r0 := x / n, x % n;
    assert (q - q0) * n == r0 - r;
    SmallMultiple(q - q0, n);
  }

  lemma SmallMultiple(d: int, n: int)
    requires n > 0 && -n < d * n < n
    ensures d == 0
  {
    if d >= 1 {
      MulAtLeast(d, n);
    } else if d <= -1 {
      MulAtLeast(-d, n);
    }
  }

  lemma MulAtLeast(a: int, n: int)
    requires a >= 1 && n >= 0
    ensures a * n >= n
  {
  }

  /** The four steps of one cycle over the single phrase "AB". */
  lemma TwoLetterSteps()
    ensures NonEmptyPhrases(["AB"])
    ensures TypeStep(["AB"], Cursor(0, 0, false)) == Step(Cursor(0, 1, false), "A", TypeDelay)
    ensures TypeStep(["AB"], Cursor(0, 1, false)) == Step(Cursor(0, 2, true), "AB", ReadPause)
    ensures TypeStep(["AB"], Cursor(0, 2, true)) == Step(Cursor(0, 1, true), "A", DeleteDelay)
    ensures TypeStep(["AB"], Cursor(0, 1, true)) == Step(Cursor(0, 0, false), "", NextPhrasePause)
  {
    assert "AB"[..1] == "A" && "AB"[..2] == "AB" && "AB"[..0] == "";
  }

  /** With the single phrase "AB" the display reads "A", "AB" (pause 2000),
      "A", "" (pause 500), and the cycle starts again. */
  lemma TwoLetterScenario()
    ensures NonEmptyPhrases(["AB"])
    ensures Trace(["AB"], Cursor(0, 0, false), 4) ==
      [Step(Cursor(0, 1, false), "A", TypeDelay),
       Step(Cursor(0, 2, true), "AB", ReadPause),
       Step(Cursor(0, 1, true), "A", DeleteDelay),
       Step(Cursor(0, 0, false), "", NextPhrasePause)]
  {
    TwoLetterSteps();
    var ab := ["AB"];
    assert Trace(ab, Cursor(0, 0, false), 0) == [];
    assert Trace(ab, Cursor(0, 1, true), 1) == [Step(Cursor(0, 0, false), "", NextPhrasePause)];
    assert Trace(ab, Cursor(0, 2, true), 2) == [Step(Cursor(0, 1, true), "A", DeleteDelay)] + Trace(ab, Cursor(0, 1, true), 1);
    assert Trace(ab, Cursor(0, 1, false), 3) == [Step(Cursor(0, 2, true), "AB", ReadPause)] + Trace(ab, Cursor(0, 2, true), 2);
    assert Trace(ab, Cursor(0, 0, false), 4) == [Step(Cursor(0, 1, false), "A", TypeDelay)] + Trace(ab, Cursor(0, 1, false), 3);
  }

  /** The typewriter as the page runs it: the step state lives in fields that
      each call of TypeEffect updates in place, and the display element's text
      is a field it overwrites. */
  class Typewriter {
    const texts: seq<string>
    var textIndex: nat
    var charIndex: nat
    var isDeleting: bool
    /** The text content of the display element. */
    var textContent: string
    /** The delay of the timer the last step scheduled. */
    var nextDelay: nat

    function State(): Cursor
      reads this
    {
      Cursor(textIndex, charIndex, isDeleting)
    }

    ghost predicate Valid()
      reads this
    {
      NonEmptyPhrases(texts) && Within(texts, State())
    }

    /** The display shows the prefix of the current phrase of length charIndex. */
    ghost predicate Displayed()
      reads this
      requires Valid()
    {
      textContent == texts[textIndex][..charIndex]
    }

    /** Sets up the state (0, 0, typing) over the page's fixed phrase list,
        in cycle order, and runs the first step at once, as the page does on
        load. */
    constructor ()
      ensures Valid() && Displayed()
      ensures texts == ["PREMIUM OIL CHANGE SERVICE", "EXPERT CAR DETAILING",
                        "RELIABLE BATTERY SERVICE", "GENUINE AUTO ACCESSORIES"]
      ensures State() == Cursor(0, 1, false) && textContent == "P" && nextDelay == TypeDelay
    {
      texts := ["PREMIUM OIL CHANGE SERVICE", "EXPERT CAR DETAILING",
                "RELIABLE BATTERY SERVICE", "GENUINE AUTO ACCESSORIES"];
      textIndex, charIndex, isDeleting := 0, 0, false;
      textContent := "";
      nextDelay := 0;
      new;
      TypeEffect();
    }

    /** One step: write the next prefix, move charIndex by one, switch mode at
        the boundaries and schedule the next step. */
    method TypeEffect()
      requires Valid()
      modifies this
      ensures Valid() && Displayed()
      ensures Step(State(), textContent, nextDelay) == TypeStep(texts, old(State()))
    {
      var currentText := texts[textIndex];
      var typeSpeed := TypeDelay;

      if isDeleting {
        textContent := currentText[..charIndex - 1];
        charIndex := charIndex - 1;
        typeSpeed := DeleteDelay;
      } else {
        textContent := currentText[..charIndex + 1];
        charIndex := charIndex + 1;
        typeSpeed := TypeDelay;
      }

      if !isDeleting && charIndex == |currentText| {
        isDeleting := true;
        typeSpeed := ReadPause;
      } else if isDeleting && charIndex == 0 {
        isDeleting := false;
        textIndex := (textIndex + 1) % |texts|;
        typeSpeed := NextPhrasePause;
      }

      nextDelay := typeSpeed;
    }
  }
}
