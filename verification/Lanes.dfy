/**
 * FIFO lanes whose messages open, use and shut keys that are handed out again later: the server's
 * inbox (keys are socket addresses) and the packet streams of the tunnel (keys are client ids).
 * Every message also carries the generation it belongs to, which no handler looks at.
 */
module Lanes {
  import opened Bytes

  type Payload = seq<byte>

  datatype Mark =
    | Open(key: nat, gen: nat)
    | Use(key: nat, gen: nat, data: Payload)
    | Shut(key: nat, gen: nat)
    | Blank

  type Lane = seq<Mark>

  /** Which generation holds each key. */
  type View = map<nat, nat>

  function After(view: View, m: Mark): View {
    match m
    case Open(key, gen) => view[key := gen]
    case Shut(key, _) => view - {key}
    case _ => view
  }

  /**
   * What a lane is careful about: that payloads come from the holder of their key, that all messages about a
   * key do, or also that only free keys are opened.
   */
  datatype Care = PayloadsOnly | AllMessages | FreshKeys

  predicate Agrees(care: Care, view: View, m: Mark) {
    match m
    case Open(key, _) => care.FreshKeys? ==> key !in view
    case Use(key, gen, _) => key in view ==> view[key] == gen
    case Shut(key, gen) => !care.PayloadsOnly? && key in view ==> view[key] == gen
    case Blank => true
  }

  /** The view once every message has been taken. */
  function Final(view: View, q: Lane): View
    decreases |q|
  {
    if q == [] then view else Final(After(view, q[0]), q[1..])
  }

  predicate Consistent(care: Care, view: View, q: Lane)
    decreases |q|
  {
    q == [] || (Agrees(care, view, q[0]) && Consistent(care, After(view, q[0]), q[1..]))
  }

  /** The payloads of one generation in a lane, in order. */
  function UsesOf(q: Lane, gen: nat): seq<Payload> {
    if q == [] then []
    else (if q[0].Use? && q[0].gen == gen then [q[0].data] else []) + UsesOf(q[1..], gen)
  }

  // ----- Appending -----

  lemma {:induction false} AppendMark(care: Care, view: View, q: Lane, m: Mark)
    ensures Final(view, q + [m]) == After(Final(view, q), m)
    ensures Consistent(care, view, q + [m]) <==> Consistent(care, view, q) && Agrees(care, Final(view, q), m)
    decreases |q|
  {
    if q == [] {
      assert q + [m] == [m];
      assert Final(After(view, m), []) == After(view, m);
    } else {
      assert (q + [m])[1..] == q[1..] + [m];
      AppendMark(care, After(view, q[0]), q[1..], m);
    }
  }

  lemma {:induction false} AppendUses(q: Lane, m: Mark, gen: nat)
    ensures UsesOf(q + [m], gen) == UsesOf(q, gen) + (if m.Use? && m.gen == gen then [m.data] else [])
  {
    if q == [] {
      assert q + [m] == [m];
      assert UsesOf([m][1..], gen) == [];
    } else {
      assert (q + [m])[1..] == q[1..] + [m];
      AppendUses(q[1..], m, gen);
    }
  }

  lemma UsesTail(q: Lane)
    requires q != []
    ensures forall g :: UsesOf(q, g) == (if q[0].Use? && q[0].gen == g then [q[0].data] else []) + UsesOf(q[1..], g)
  {
  }

  lemma {:induction false} Concat(care: Care, view: View, a: Lane, b: Lane)
    ensures Final(view, a + b) == Final(Final(view, a), b)
    ensures Consistent(care, view, a + b) <==> Consistent(care, view, a) && Consistent(care, Final(view, a), b)
    decreases |a|
  {
    if a == [] {
      assert a + b == b;
    } else {
      assert (a + b)[1..] == a[1..] + b;
      Concat(care, After(view, a[0]), a[1..], b);
    }
  }

  // ----- Views that lose keys -----

  ghost predicate Within(small: View, large: View) {
    forall k :: k in small ==> k in large && small[k] == large[k]
  }

  /** Forgetting keys of the view never makes a lane inconsistent. */
  lemma {:induction false} Shrink(care: Care, small: View, large: View, q: Lane)
    requires Within(small, large) && Consistent(care, large, q)
    ensures Consistent(care, small, q) && Within(Final(small, q), Final(large, q))
    decreases |q|
  {
    if q != [] {
      Shrink(care, After(small, q[0]), After(large, q[0]), q[1..]);
    }
  }

  /** What becomes of a key depends on that key only. */
  lemma {:induction false} FinalLocal(v: View, w: View, q: Lane, k: nat)
    requires k in v <==> k in w
    requires k in v ==> v[k] == w[k]
    ensures k in Final(v, q) <==> k in Final(w, q)
    ensures k in Final(v, q) ==> Final(v, q)[k] == Final(w, q)[k]
    decreases |q|
  {
    if q != [] {
      FinalLocal(After(v, q[0]), After(w, q[0]), q[1..], k);
    }
  }

  predicate Opens(q: Lane, k: nat, gen: nat) {
    exists i :: 0 <= i < |q| && q[i] == Open(k, gen)
  }

  /** A key that is held in the end was held in the beginning or is opened on the way. */
  lemma {:induction false} FinalSource(view: View, q: Lane, k: nat)
    requires k in Final(view, q)
    ensures (k in view && view[k] == Final(view, q)[k]) || Opens(q, k, Final(view, q)[k])
    decreases |q|
  {
    if q != [] {
      FinalSource(After(view, q[0]), q[1..], k);
      var g := Final(view, q)[k];
      if Opens(q[1..], k, g) {
        var i :| 0 <= i < |q[1..]| && q[1..][i] == Open(k, g);
        assert q[i + 1] == Open(k, g);
      } else if q[0] == Open(k, g) {
        assert Opens(q, k, g);
      }
    }
  }

  lemma {:induction false} NoUses(q: Lane, gen: nat)
    requires forall i :: 0 <= i < |q| && !q[i].Blank? ==> q[i].gen != gen
    ensures UsesOf(q, gen) == []
  {
    if q != [] {
      assert forall i :: 0 <= i < |q[1..]| ==> q[1..][i] == q[i + 1];
      NoUses(q[1..], gen);
    }
  }

  // ----- Keys that are handed out again -----

  predicate NoKey(q: Lane, k: nat) {
    forall i :: 0 <= i < |q| && !q[i].Blank? ==> q[i].key != k
  }

  predicate NoOpens(q: Lane) {
    forall i :: 0 <= i < |q| ==> !q[i].Open?
  }

  /** Nothing in the lane can be taken for a new holder's: no message about the key, or first one that shuts it. */
  predicate Spared(care: Care, q: Lane, k: nat) {
    q == [] ||
    (if q[0].Blank? || q[0].key != k then Spared(care, q[1..], k) else care.PayloadsOnly? && q[0].Shut?)
  }

  lemma {:induction false} SparedAll(care: Care, q: Lane, k: nat)
    requires Spared(care, q, k)
    ensures !care.PayloadsOnly? ==> NoKey(q, k)
  {
    if q != [] && (q[0].Blank? || q[0].key != k) {
      SparedAll(care, q[1..], k);
      assert forall i :: 0 < i < |q| ==> q[i] == q[1..][i - 1];
    }
  }

  lemma {:induction false} SparedNone(care: Care, q: Lane, k: nat)
    requires NoKey(q, k)
    ensures Spared(care, q, k)
  {
    if q != [] {
      assert forall i :: 0 <= i < |q[1..]| ==> q[1..][i] == q[i + 1];
      SparedNone(care, q[1..], k);
    }
  }

  /** The first message that can be taken for a new holder's. */
  lemma {:induction false} FirstTaken(care: Care, q: Lane, k: nat) returns (i: nat)
    requires !Spared(care, q, k)
    ensures i < |q| && !q[i].Blank? && q[i].key == k && !(care.PayloadsOnly? && q[i].Shut?)
    ensures NoKey(q[..i], k)
    decreases |q|
  {
    i := 0;
    if q[0].Blank? || q[0].key != k {
      i := FirstTaken(care, q[1..], k);
      i := i + 1;
      assert forall j :: 0 < j < i ==> q[..i][j] == q[1..][..i - 1][j - 1];
    }
  }

  lemma {:induction false} NotSpared(care: Care, q: Lane, m: Mark)
    requires m.Use? && NoKey(q, m.key)
    ensures !Spared(care, q + [m], m.key)
    decreases |q|
  {
    if q != [] {
      assert (q + [m])[1..] == q[1..] + [m];
      assert forall i :: 0 <= i < |q[1..]| ==> q[1..][i] == q[i + 1];
      NotSpared(care, q[1..], m);
    }
  }

  lemma NeverHeld(view: View, q: Lane, k: nat)
    requires k !in view && NoOpens(q)
    ensures k !in Final(view, q)
  {
    if k in Final(view, q) {
      FinalSource(view, q, k);
    }
  }

  /** A free key is handed out while messages are on the way. */
  lemma {:induction false} HandOut(care: Care, view: View, q: Lane, k: nat, gen: nat)
    requires k !in view && NoOpens(q) && Consistent(care, view, q) && Spared(care, q, k)
    ensures Consistent(care, view[k := gen], q)
    ensures var final := Final(view, q); Final(view[k := gen], q) == if NoKey(q, k) then final[k := gen] else final
    decreases |q|
  {
    if q != [] {
      var m := q[0];
      assert forall i :: 0 <= i < |q[1..]| ==> q[1..][i] == q[i + 1];
      if m.Blank? || m.key != k {
        assert After(view[k := gen], m) == After(view, m)[k := gen];
        HandOut(care, After(view, m), q[1..], k, gen);
        assert NoKey(q, k) <==> NoKey(q[1..], k) by {
          if NoKey(q[1..], k) {
            assert forall i :: 0 < i < |q| ==> q[i] == q[1..][i - 1];
          }
        }
      } else {
        assert After(view[k := gen], m) == view - {k} == view == After(view, m);
      }
    }
  }
}
