/** Multiple-choice questions: the answer dictionary `mode2_correct_answers`,
    the question draw, Python's `random.shuffle` and the "force the correct
    answer in" fix-up that builds the four answer options. */
module Choices {
  import opened Lists

  /** A Python dict in insertion order, as its list of (key, value) items. */
  type Table = seq<(string, string)>

  /** `list(d.keys())` */
  function Keys(t: Table): (ks: seq<string>)
  {
    seq(|t|, i requires 0 <= i < |t| => t[i].0)
  }

  /** `list(d.values())` */
  function Values(t: Table): (vs: seq<string>)
  {
    seq(|t|, i requires 0 <= i < |t| => t[i].1)
  }

  /** What the option code relies on: keys are unique (a dict), the values
      are pairwise distinct and there are at least four of them. */
  predicate WellFormed(t: Table)
  {
    |t| >= 4 && Distinct(Keys(t)) && Distinct(Values(t))
  }

  /** `load_mode2_correct_answers`: the demo's eight questions "1".."8" whose
      answers are the letters "A".."H". */
  function LoadMode2CorrectAnswers(): (t: Table)
    ensures |t| == 8 && WellFormed(t)
    ensures Values(t)[..4] == ["A", "B", "C", "D"]
  {
    [("1", "A"), ("2", "B"), ("3", "C"), ("4", "D"),
     ("5", "E"), ("6", "F"), ("7", "G"), ("8", "H")]
  }

  /** `d[k]` for a key of `d`: the value stored with the first item whose key
      is `k`. */
  function Lookup(t: Table, k: string): (v: string)
    requires k in Keys(t)
    ensures (k, v) in t
  {
    if t[0].0 == k then t[0].1
    else
      assert Keys(t) == [t[0].0] + Keys(t[1..]);
      Lookup(t[1..], k)
  }

  /** In a dict whose keys are unique, the value looked up for the key at
      position `i` is the value at position `i`. */
  lemma {:induction false} LookupAt(t: Table, i: nat)
    requires Distinct(Keys(t)) && i < |t|
    ensures Keys(t)[i] in Keys(t) && Lookup(t, Keys(t)[i]) == Values(t)[i]
  {
    if i > 0 {
      assert Keys(t)[0] != Keys(t)[i];
      assert Keys(t[1..]) == Keys(t)[1..];
      assert Values(t[1..]) == Values(t)[1..];
      LookupAt(t[1..], i - 1);
    }
  }

  /** An answer looked up in the dict is one of its values. */
  lemma LookupIsValue(t: Table, k: string)
    requires k in Keys(t)
    ensures Lookup(t, k) in Values(t)
  {
    var j :| 0 <= j < |t| && t[j] == (k, Lookup(t, k));
    assert Values(t)[j] == Lookup(t, k);
  }

  /** The choices `random.shuffle` makes on a list of length `n`: CPython runs
      `for i in reversed(range(1, n)): j = randbelow(i + 1); swap x[i], x[j]`,
      so step `k` swaps position `n - 1 - k` with some `js[k] <= n - 1 - k`. */
  predicate ShuffleChoices(n: nat, js: seq<nat>)
  {
    |js| == (if n == 0 then 0 else n - 1)
    && forall k :: 0 <= k < |js| ==> js[k] + k < n
  }

  /** The list with the elements at positions `i` and `j` exchanged. */
  function SwapAt<T>(s: seq<T>, i: nat, j: nat): (r: seq<T>)
    requires i < |s| && j < |s|
  {
    seq(|s|, m requires 0 <= m < |s| => if m == i then s[j] else if m == j then s[i] else s[m])
  }

  /** The list after the first `k` steps of the shuffle. */
  function Shuffled<T>(s: seq<T>, js: seq<nat>, k: nat): (r: seq<T>)
    requires ShuffleChoices(|s|, js) && k <= |js|
    ensures |r| == |s|
  {
    if k == 0 then s
    else SwapAt(Shuffled(s, js, k - 1), |s| - k, js[k - 1])
  }

  /** `random.shuffle(a)` in place, with its random choices taken as `js`. */
  method Shuffle<T>(a: array<T>, js: seq<nat>)
    requires ShuffleChoices(a.Length, js)
    modifies a
    ensures a[..] == Shuffled(old(a[..]), js, |js|)
  {
    var k := 0;
    while k < |js|
      invariant 0 <= k <= |js|
      invariant a[..] == Shuffled(old(a[..]), js, k)
    {
      var i, j := a.Length - 1 - k, js[k];
      ghost var before := a[..];
      a[i], a[j] := a[j], a[i];
      assert a[..] == SwapAt(before, i, j);
      k := k + 1;
    }
  }

  /** Exchanging two positions is a permutation. */
  lemma SwapPermutes<T>(s: seq<T>, i: nat, j: nat)
    requires i < |s| && j < |s|
    ensures multiset(SwapAt(s, i, j)) == multiset(s)
  {
    var half := s[i := s[j]];
    assert half[j] == s[j];
    assert multiset(half) == multiset(s) - multiset{s[i]} + multiset{s[j]};
    assert SwapAt(s, i, j) == half[j := s[i]];
  }

  /** A shuffle is a permutation. */
  lemma {:induction false} ShuffledPermutes<T>(s: seq<T>, js: seq<nat>, k: nat)
    requires ShuffleChoices(|s|, js) && k <= |js|
    ensures multiset(Shuffled(s, js, k)) == multiset(s)
  {
    if k > 0 {
      ShuffledPermutes(s, js, k - 1);
      SwapPermutes(Shuffled(s, js, k - 1), |s| - k, js[k - 1]);
    }
  }

  /** A shuffle keeps a duplicate-free list duplicate-free. */
  lemma {:induction false} ShuffledDistinct<T>(s: seq<T>, js: seq<nat>, k: nat)
    requires ShuffleChoices(|s|, js) && k <= |js| && Distinct(s)
    ensures Distinct(Shuffled(s, js, k))
  {
    if k > 0 {
      ShuffledDistinct(s, js, k - 1);
      var p := Shuffled(s, js, k - 1);
      var i, j := |s| - k, js[k - 1];
      var r := SwapAt(p, i, j);
      forall a, b | 0 <= a < b < |r| ensures r[a] != r[b] {
        var a' := if a == i then j else if a == j then i else a;
        var b' := if b == i then j else if b == j then i else b;
        assert r[a] == p[a'] && r[b] == p[b'];
      }
    }
  }

  /** The fix-up: `if correct not in options: options[slot] = correct`. */
  function FixUp(options: seq<string>, slot: nat, correct: string): (r: seq<string>)
    requires slot < |options|
    ensures |r| == |options| && correct in r
    ensures forall i :: 0 <= i < |r| && i != slot ==> r[i] == options[i]
    ensures correct in options ==> r == options
    ensures Distinct(options) ==> Distinct(r)
  {
    if correct in options then options
    else
      assert options[slot := correct][slot] == correct;
      options[slot := correct]
  }

  /** The four options `update_mode2_question` shows: the first four dict
      values, shuffled, then fixed up. */
  function AnswerOptions(t: Table, js: seq<nat>, slot: nat, correct: string): (r: seq<string>)
    requires |t| >= 4 && ShuffleChoices(4, js) && slot < 4
  {
    FixUp(Shuffled(Values(t)[..4], js, |js|), slot, correct)
  }

  /** The options are a permutation of the first four values with at most the
      one slot `slot` replaced by the correct answer, which they contain;
      when the answer is among the first four they are exactly a permutation. */
  lemma AnswerOptionsArePermutedValues(t: Table, js: seq<nat>, slot: nat, correct: string)
    requires |t| >= 4 && ShuffleChoices(4, js) && slot < 4
    ensures var first := Values(t)[..4];
            var shuffled := Shuffled(first, js, |js|);
            var r := AnswerOptions(t, js, slot, correct);
            |r| == 4 && correct in r
            && multiset(shuffled) == multiset(first)
            && (forall i :: 0 <= i < 4 && i != slot ==> r[i] == shuffled[i])
            && (correct in first ==> multiset(r) == multiset(first))
  {
    var first := Values(t)[..4];
    ShuffledPermutes(first, js, |js|);
    var shuffled := Shuffled(first, js, |js|);
    if correct in first {
      assert correct in multiset(shuffled);
    }
  }

  /** With distinct dict values the four options are pairwise distinct, so
      exactly one of them is graded correct. */
  lemma AnswerOptionsDistinct(t: Table, js: seq<nat>, slot: nat, correct: string)
    requires WellFormed(t) && ShuffleChoices(4, js) && slot < 4
    ensures Distinct(AnswerOptions(t, js, slot, correct))
    ensures var r := AnswerOptions(t, js, slot, correct);
            forall i, j :: 0 <= i < 4 && 0 <= j < 4 && r[i] == correct && r[j] == correct ==> i == j
  {
    var first := Values(t)[..4];
    assert Distinct(first);
    ShuffledDistinct(first, js, |js|);
  }

  /** `create_mode2_window` shuffles ALL the dict values before its fix-up, so
      the correct answer (itself a dict value) is always present there and the
      replacement never happens. */
  lemma WindowFixUpNeverFires(t: Table, js: seq<nat>, k: string)
    requires k in Keys(t) && ShuffleChoices(|t|, js)
    ensures Lookup(t, k) in Shuffled(Values(t), js, |js|)
  {
    LookupIsValue(t, k);
    ShuffledPermutes(Values(t), js, |js|);
    assert Lookup(t, k) in multiset(Values(t));
  }
}
