/** Keeping one item per key: an item is replaced only by one that beats it. */
module Folding {

  function Keep1<T>(key: T -> string, beats: (T, T) -> bool, kept: map<string, T>, e: T): map<string, T> {
    if key(e) in kept && !beats(e, kept[key(e)]) then kept else kept[key(e) := e]
  }

  function Keep<T>(key: T -> string, beats: (T, T) -> bool, es: seq<T>): map<string, T> {
    if es == [] then map[] else Keep1(key, beats, Keep(key, beats, es[..|es| - 1]), es[|es| - 1])
  }

  /** Among items of one key, beats is a strict order with transitive ties. */
  ghost predicate Precedence<T(!new)>(key: T -> string, beats: (T, T) -> bool) {
    && (forall a, b :: beats(a, b) ==> key(a) == key(b) && !beats(b, a))
    && (forall a, b, c :: key(a) == key(b) == key(c) && !beats(b, a) && !beats(c, b) ==> !beats(c, a))
  }

  /** One of the items, beaten by none. */
  ghost predicate Wins<T(!new)>(beats: (T, T) -> bool, es: seq<T>, w: T) {
    w in es && forall e :: e in es ==> !beats(e, w)
  }

  lemma {:induction false} KeepWins<T(!new)>(key: T -> string, beats: (T, T) -> bool, es: seq<T>)
    requires Precedence(key, beats)
    ensures forall e :: e in es ==> key(e) in Keep(key, beats, es)
    ensures forall k :: k in Keep(key, beats, es) ==>
            key(Keep(key, beats, es)[k]) == k && Wins(beats, es, Keep(key, beats, es)[k])
  {
    if es != [] {
      var n := |es| - 1;
      var kept, e := Keep(key, beats, es[..n]), es[n];
      KeepWins(key, beats, es[..n]);
      assert es == es[..n] + [e];
      forall k | k in Keep(key, beats, es)
        ensures key(Keep(key, beats, es)[k]) == k && Wins(beats, es, Keep(key, beats, es)[k])
      {
        if k == key(e) && Keep(key, beats, es)[k] == e {
          assert k in kept ==> !beats(kept[k], e);
          forall x | x in es ensures !beats(x, e) {
            assert x in es[..n] && key(x) == k ==> k in kept && !beats(x, kept[k]);
          }
        }
      }
    }
  }

  /** However the items are ordered, the same keys are kept, each with an item neither of which beats the other. */
  lemma KeepIgnoresOrder<T(!new)>(key: T -> string, beats: (T, T) -> bool, a: seq<T>, b: seq<T>, k: string)
    requires Precedence(key, beats) && multiset(a) == multiset(b)
    ensures k in Keep(key, beats, a) <==> k in Keep(key, beats, b)
    ensures k in Keep(key, beats, a) ==>
              var x, y := Keep(key, beats, a)[k], Keep(key, beats, b)[k];
              key(x) == k == key(y) && !beats(x, y) && !beats(y, x)
  {
    KeepWins(key, beats, a);
    KeepWins(key, beats, b);
    forall e ensures e in a <==> e in b {
      assert e in a <==> e in multiset(a);
      assert e in b <==> e in multiset(b);
    }
  }
}
