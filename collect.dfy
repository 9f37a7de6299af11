/**
 * The loop shape of getClasses, which builds its list from fallible steps
 * (one per data row):
 *
 *     for each x in xs: v, err = step(x); if err != nil, stop; otherwise append v to acc
 *
 * It returns what was appended before the first failing step together with
 * that failure. Where a Go step would panic (an index out of range, a
 * regular-expression match the code does not check) the model has a `safe`
 * predicate beside the step; it only has to hold for the elements the loop
 * actually reaches. The other loops of the session (over category ids,
 * student rows, list pages and classes) have the same shape but are written
 * out in SessionSpec, each over its own step.
 */
module Collecting {
  import opened Wrappers

  /** The pair (acc, err) the Go loop leaves behind. */
  datatype Partial<B, E> = Partial(items: seq<B>, err: Option<E>)

  /** Values gathered before `p` come first. */
  function Prepend<B, E>(acc: seq<B>, p: Partial<B, E>): Partial<B, E> {
    Partial(acc + p.items, p.err)
  }

  /** Two batches appended one after the other are one batch appended. */
  lemma PrependTwice<B, E>(a: seq<B>, b: seq<B>, p: Partial<B, E>)
    ensures Prepend(a, Prepend(b, p)) == Prepend(a + b, p)
  {
    assert a + (b + p.items) == (a + b) + p.items;
  }

  /**
   * The loop over xs never runs a step outside `safe`: every element reached
   * (all of them up to and including the first failure) is safe.
   */
  predicate Collectable<A, B, E>(xs: seq<A>, safe: A -> bool, step: A -> Result<seq<B>, E>)
    decreases |xs|
  {
    xs == [] || (safe(xs[0]) && (step(xs[0]).Ok? ==> Collectable(xs[1..], safe, step)))
  }

  /** The result of the Go loop. */
  function Collect<A, B, E>(xs: seq<A>, step: A -> Result<seq<B>, E>): Partial<B, E>
    decreases |xs|
  {
    if xs == [] then Partial([], None)
    else match step(xs[0])
      case Err(e) => Partial([], Some(e))
      case Ok(v) => Prepend(v, Collect(xs[1..], step))
  }

  /**
   * One iteration of the Go loop, as a loop invariant uses it: with `acc`
   * gathered so far and xs[i..] still to do, processing xs[i] either stops
   * with its error or appends its values and moves on; and xs[i] is safe.
   */
  lemma CollectStep<A, B, E>(xs: seq<A>, safe: A -> bool, step: A -> Result<seq<B>, E>, i: nat, acc: seq<B>)
    requires i < |xs| && Collectable(xs[i..], safe, step)
    ensures safe(xs[i])
    ensures step(xs[i]).Err? ==> Prepend(acc, Collect(xs[i..], step)) == Partial(acc, Some(step(xs[i]).error))
    ensures step(xs[i]).Ok? ==>
      Collectable(xs[i + 1..], safe, step) &&
      Prepend(acc, Collect(xs[i..], step)) == Prepend(acc + step(xs[i]).value, Collect(xs[i + 1..], step))
  {
    assert xs[i..][0] == xs[i];
    assert xs[i..][1..] == xs[i + 1..];
    if step(xs[i]).Ok? {
      var v := step(xs[i]).value;
      var rest := Collect(xs[i + 1..], step);
      assert acc + (v + rest.items) == (acc + v) + rest.items;
    }
  }

  /** CollectStep at the head of what is still to do. */
  lemma CollectHead<A, B, E>(xs: seq<A>, safe: A -> bool, step: A -> Result<seq<B>, E>, acc: seq<B>)
    requires xs != [] && Collectable(xs, safe, step)
    ensures safe(xs[0])
    ensures step(xs[0]).Err? ==> Prepend(acc, Collect(xs, step)) == Partial(acc, Some(step(xs[0]).error))
    ensures step(xs[0]).Ok? ==>
      Collectable(xs[1..], safe, step) &&
      Prepend(acc, Collect(xs, step)) == Prepend(acc + step(xs[0]).value, Collect(xs[1..], step))
  {
    assert xs[0..] == xs;
    CollectStep(xs, safe, step, 0, acc);
  }

  /** The loop ends without error exactly when every step succeeds. */
  lemma {:induction false} CollectSucceeds<A, B, E>(xs: seq<A>, step: A -> Result<seq<B>, E>)
    ensures Collect(xs, step).err.None? <==> forall i :: 0 <= i < |xs| ==> step(xs[i]).Ok?
    decreases |xs|
  {
    if xs != [] && step(xs[0]).Ok? {
      CollectSucceeds(xs[1..], step);
      assert forall i :: 1 <= i < |xs| ==> xs[i] == xs[1..][i - 1];
    }
  }

  /**
   * Appending to xs: what the loop does on xs + ys is what it does on xs,
   * continued on ys only if xs raised no error.
   */
  lemma {:induction false} CollectAppend<A, B, E>(xs: seq<A>, ys: seq<A>, step: A -> Result<seq<B>, E>)
    ensures Collect(xs + ys, step) ==
      if Collect(xs, step).err.Some? then Collect(xs, step)
      else Prepend(Collect(xs, step).items, Collect(ys, step))
    decreases |xs|
  {
    if xs == [] {
      assert xs + ys == ys;
    } else {
      assert (xs + ys)[0] == xs[0];
      assert (xs + ys)[1..] == xs[1..] + ys;
      if step(xs[0]).Ok? {
        CollectAppend(xs[1..], ys, step);
        var v := step(xs[0]).value;
        var p := Collect(xs[1..], step);
        if p.err.None? {
          var q := Collect(ys, step);
          assert v + (p.items + q.items) == (v + p.items) + q.items;
        }
      }
    }
  }

  /** The loop over xs + ys is safe when its run over xs is, and then over ys if xs raised no error. */
  lemma {:induction false} CollectableAppend<A, B, E>(xs: seq<A>, ys: seq<A>, safe: A -> bool, step: A -> Result<seq<B>, E>)
    requires Collectable(xs + ys, safe, step)
    ensures Collectable(xs, safe, step)
    ensures Collect(xs, step).err.None? ==> Collectable(ys, safe, step)
    decreases |xs|
  {
    if xs == [] {
      assert xs + ys == ys;
    } else {
      assert (xs + ys)[0] == xs[0];
      assert (xs + ys)[1..] == xs[1..] + ys;
      if step(xs[0]).Ok? {
        CollectableAppend(xs[1..], ys, safe, step);
      }
    }
  }

  /**
   * A loop split in two: once the run over xs has left (items, err) after
   * `before`, the run over xs + ys either ends there with err or goes on over
   * ys from items.
   */
  lemma CollectThen<A, B, E>(xs: seq<A>, ys: seq<A>, safe: A -> bool, step: A -> Result<seq<B>, E>,
                             before: seq<B>, items: seq<B>, err: Option<E>)
    requires Collectable(xs + ys, safe, step)
    requires Partial(items, err) == Prepend(before, Collect(xs, step))
    ensures err.Some? ==> Prepend(before, Collect(xs + ys, step)) == Partial(items, err)
    ensures err.None? ==>
      Collectable(ys, safe, step) && Prepend(before, Collect(xs + ys, step)) == Prepend(items, Collect(ys, step))
  {
    CollectableAppend(xs, ys, safe, step);
    CollectAppend(xs, ys, step);
    if err.None? {
      var p, q := Collect(xs, step), Collect(ys, step);
      assert before + (p.items + q.items) == (before + p.items) + q.items;
    }
  }

  /**
   * When each successful step yields exactly one value, the loop yields one
   * value per element it got through, in element order, and stops at the
   * first failing element, whose error it returns; every element it reached
   * was safe.
   */
  lemma {:induction false} CollectOneEach<A, B, E>(xs: seq<A>, safe: A -> bool, step: A -> Result<seq<B>, E>)
    requires Collectable(xs, safe, step)
    requires forall i :: 0 <= i < |xs| && step(xs[i]).Ok? ==> |step(xs[i]).value| == 1
    ensures var r := Collect(xs, step);
      && |r.items| <= |xs|
      && (r.err.None? <==> |r.items| == |xs|)
      && (forall i :: 0 <= i < |r.items| ==>
            safe(xs[i]) && step(xs[i]).Ok? && r.items[i] == step(xs[i]).value[0])
      && (r.err.Some? ==> safe(xs[|r.items|]) && step(xs[|r.items|]) == Err(r.err.value))
    decreases |xs|
  {
    if xs != [] && step(xs[0]).Ok? {
      assert forall i :: 1 <= i < |xs| ==> xs[i] == xs[1..][i - 1];
      CollectOneEach(xs[1..], safe, step);
    }
  }
}
