/**
 A push sequence (iter.Seq2) and the reader that ranges over it. The reader's body runs for
 each step; breaking out of it makes the producer's yield return false. Whatever the reader
 decides from what it saw, in one run it amounts to accepting some number of steps and
 refusing the next, or never refusing.
 */
module Reading {
  import opened Text

  /** One step of a sequence of values and errors. */
  datatype Step<+T, +E> = Item(item: T) | Fault(fault: E)

  /** None never refuses; Some(n) accepts n steps and refuses the one after. */
  type Patience = Option<nat>

  /** The yield that delivered the last step of seen returned false. */
  predicate Refused<X>(seen: seq<X>, patience: Patience) {
    patience.Some? && |seen| > patience.value
  }

  /** What a reader sees of a sequence: all of it, or up to and including the refused step. */
  function Seen<X>(full: seq<X>, patience: Patience): seq<X> {
    if Refused(full, patience) then full[..patience.value + 1] else full
  }

  /** Once refused, whatever the sequence would have gone on to say is not seen. */
  lemma SeenStops<X>(full: seq<X>, more: seq<X>, patience: Patience)
    requires Refused(full, patience)
    ensures Refused(full + more, patience) && Seen(full + more, patience) == Seen(full, patience)
  {
    assert (full + more)[..patience.value + 1] == full[..patience.value + 1];
  }

  /** The items of a sequence, in order. */
  function Items<T, E>(steps: seq<Step<T, E>>): seq<T> {
    if steps == [] then [] else
      var last := steps[|steps| - 1];
      Items(steps[..|steps| - 1]) + if last.Item? then [last.item] else []
  }

  lemma {:induction false} ItemsAppend<T, E>(a: seq<Step<T, E>>, b: seq<Step<T, E>>)
    ensures Items(a + b) == Items(a) + Items(b)
  {
    if b == [] {
      assert a + b == a;
    } else {
      var n := |b| - 1;
      assert (a + b)[..|a + b| - 1] == a + b[..n];
      ItemsAppend(a, b[..n]);
      Regroup(Items(a), Items(b[..n]), if b[n].Item? then [b[n].item] else []);
    }
  }

  /** A sequence that only delivers. */
  function Delivered<T, E>(data: seq<T>): (steps: seq<Step<T, E>>)
    ensures |steps| == |data|
    ensures forall i :: 0 <= i < |data| ==> steps[i] == Item(data[i])
  {
    seq(|data|, i requires 0 <= i < |data| => Item(data[i]))
  }

  lemma {:induction false} ItemsDelivered<T, E>(data: seq<T>)
    ensures Items(Delivered<T, E>(data)) == data
  {
    if data != [] {
      var n := |data| - 1;
      assert Delivered<T, E>(data)[..n] == Delivered<T, E>(data[..n]);
      ItemsDelivered<T, E>(data[..n]);
    }
  }
}
