/**
 * Event sequences produced by the streaming XML and JSON writers: the concatenation of
 * per-item fragments, and the nesting of opening and closing events.
 */
module EventStreams {
  import opened Wrappers

  /** The fragments of `items`, in order, one after the other. */
  function Concat<T, E>(fragment: T -> seq<E>, items: seq<T>): seq<E>
  {
    if items == [] then [] else fragment(items[0]) + Concat(fragment, items[1..])
  }

  /** Regrouping a concatenation of fragments to the right, as a reader consumes them from the front. */
  lemma Associate3<E>(a: seq<E>, b: seq<E>, c: seq<E>)
    ensures a + b + c == a + (b + c)
  {
  }

  lemma Associate4<E>(a: seq<E>, b: seq<E>, c: seq<E>, d: seq<E>)
    ensures a + b + c + d == a + (b + (c + d))
  {
    Associate3(a, b, c);
    Associate3(a, b + c, d);
    Associate3(b, c, d);
  }

  lemma Associate5<E>(a: seq<E>, b: seq<E>, c: seq<E>, d: seq<E>, e: seq<E>)
    ensures a + b + c + d + e == a + (b + (c + (d + e)))
  {
    Associate4(a, b, c, d);
    Associate3(a, b + (c + d), e);
    Associate3(b, c + d, e);
    Associate3(c, d, e);
  }

  /** Appending one item appends its fragment: what a loop over the items emits after each round. */
  lemma {:induction false} ConcatSnoc<T, E>(fragment: T -> seq<E>, items: seq<T>, x: T)
    ensures Concat(fragment, items + [x]) == Concat(fragment, items) + fragment(x)
  {
    if items == [] {
      assert items + [x] == [x];
    } else {
      assert (items + [x])[1..] == items[1..] + [x];
      ConcatSnoc(fragment, items[1..], x);
    }
  }

  /**
   * One round of a loop that writes the fragment of `items[i]` after those of `items[..i]`:
   * what was written is then the fragments of `items[..i + 1]`.
   */
  lemma ConcatExtend<T, E>(fragment: T -> seq<E>, items: seq<T>, i: nat, prefix: seq<E>, before: seq<E>, after: seq<E>)
    requires i < |items|
    requires before == prefix + Concat(fragment, items[..i])
    requires after == before + fragment(items[i])
    ensures after == prefix + Concat(fragment, items[..i + 1])
  {
    ConcatSnoc(fragment, items[..i], items[i]);
    assert items[..i + 1] == items[..i] + [items[i]];
  }

  /** An event absent from every fragment is absent from their concatenation. */
  lemma {:induction false} ConcatExcludes<T, E>(fragment: T -> seq<E>, items: seq<T>, e: E)
    requires forall x | x in items :: e !in fragment(x)
    ensures e !in Concat(fragment, items)
  {
    if items != [] {
      ConcatExcludes(fragment, items[1..], e);
    }
  }

  /** How an event affects nesting: it opens a construct of some kind, closes one, or neither. */
  datatype Bracket<K> = Open(kind: K) | Close(kind: K) | Flat

  /**
   * Replays `events` on a stack of open constructs (innermost last); `None` when an event closes
   * a construct that is not the innermost open one, or when nothing is open.
   */
  function Run<E, K(==)>(classify: E -> Bracket<K>, events: seq<E>, stack: seq<K>): Option<seq<K>>
  {
    if events == [] then Some(stack)
    else
      match classify(events[0])
      case Open(k) => Run(classify, events[1..], stack + [k])
      case Close(k) =>
        if stack != [] && stack[|stack| - 1] == k then Run(classify, events[1..], stack[..|stack| - 1])
        else None
      case Flat => Run(classify, events[1..], stack)
  }

  /** A complete document: starting from nothing open, every construct is closed in order and nothing stays open. */
  predicate WellNested<E, K(==)>(classify: E -> Bracket<K>, events: seq<E>)
  {
    Run(classify, events, []) == Some([])
  }

  /** A fragment that closes exactly what it opens, never touching what was open before it. */
  ghost predicate Balanced<E, K(!new)>(classify: E -> Bracket<K>, events: seq<E>)
  {
    forall stack: seq<K> :: Run(classify, events, stack) == Some(stack)
  }

  /** Replaying two sequences one after the other is replaying their concatenation. */
  lemma {:induction false} RunAppend<E, K>(classify: E -> Bracket<K>, a: seq<E>, b: seq<E>, stack: seq<K>)
    ensures Run(classify, a + b, stack) ==
            match Run(classify, a, stack)
            case None => None
            case Some(s) => Run(classify, b, s)
  {
    if a == [] {
      assert a + b == b;
    } else {
      assert (a + b)[0] == a[0];
      assert (a + b)[1..] == a[1..] + b;
      match classify(a[0])
      case Open(k) => RunAppend(classify, a[1..], b, stack + [k]);
      case Close(k) =>
        if stack != [] && stack[|stack| - 1] == k {
          RunAppend(classify, a[1..], b, stack[..|stack| - 1]);
        }
      case Flat => RunAppend(classify, a[1..], b, stack);
    }
  }

  lemma BalancedIsWellNested<E, K(!new)>(classify: E -> Bracket<K>, events: seq<E>)
    requires Balanced(classify, events)
    ensures WellNested(classify, events)
  {
    assert Run(classify, events, []) == Some([]);
  }

  lemma BalancedAppend<E, K(!new)>(classify: E -> Bracket<K>, a: seq<E>, b: seq<E>)
    requires Balanced(classify, a) && Balanced(classify, b)
    ensures Balanced(classify, a + b)
  {
    forall stack: seq<K> ensures Run(classify, a + b, stack) == Some(stack) {
      RunAppend(classify, a, b, stack);
      assert Run(classify, a, stack) == Some(stack);
    }
  }

  lemma BalancedAppend3<E, K(!new)>(classify: E -> Bracket<K>, a: seq<E>, b: seq<E>, c: seq<E>)
    requires Balanced(classify, a) && Balanced(classify, b) && Balanced(classify, c)
    ensures Balanced(classify, a + b + c)
  {
    BalancedAppend(classify, a, b);
    BalancedAppend(classify, a + b, c);
  }

  /** Events that neither open nor close anything form a balanced fragment. */
  lemma {:induction false} BalancedFlat<E, K(!new)>(classify: E -> Bracket<K>, events: seq<E>)
    requires forall i | 0 <= i < |events| :: classify(events[i]).Flat?
    ensures Balanced(classify, events)
  {
    if events != [] {
      BalancedFlat(classify, events[1..]);
      forall stack: seq<K> ensures Run(classify, events, stack) == Some(stack) {
        assert Run(classify, events[1..], stack) == Some(stack);
      }
    }
  }

  /** Wrapping a balanced fragment in an opening event and a matching closing event keeps it balanced. */
  lemma BalancedWrap<E, K(!new)>(classify: E -> Bracket<K>, open: E, body: seq<E>, close: E)
    requires classify(open).Open? && classify(close) == Close(classify(open).kind)
    requires Balanced(classify, body)
    ensures Balanced(classify, [open] + body + [close])
  {
    var k := classify(open).kind;
    forall stack: seq<K> ensures Run(classify, [open] + body + [close], stack) == Some(stack) {
      var s := [open] + body + [close];
      assert s[0] == open && s[1..] == body + [close];
      RunAppend(classify, body, [close], stack + [k]);
      assert Run(classify, body, stack + [k]) == Some(stack + [k]);
      assert (stack + [k])[..|stack|] == stack;
    }
  }

  /** The fragments of balanced items concatenate to a balanced sequence. */
  lemma {:induction false} BalancedConcat<T, E, K(!new)>(classify: E -> Bracket<K>, fragment: T -> seq<E>, items: seq<T>)
    requires forall x | x in items :: Balanced(classify, fragment(x))
    ensures Balanced(classify, Concat(fragment, items))
  {
    if items == [] {
      BalancedFlat(classify, Concat(fragment, items));
    } else {
      BalancedConcat(classify, fragment, items[1..]);
      BalancedAppend(classify, fragment(items[0]), Concat(fragment, items[1..]));
    }
  }
}
