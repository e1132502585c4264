/** The small utilities of the client: lobby codes, the Fisher-Yates
    shuffle, the vote list and the fixed list of story topics. Randomness is
    injected: every `Math.floor(Math.random() * n)` becomes a given index
    below `n`. */
module Helpers {
  import opened Common

  /** The characters a lobby code is drawn from: upper-case letters and
      digits without the look-alikes I, O, 1 and 0. */
  const Alphabet: string := "ABCDEFGHJKLMNPQRSTUVWXYZ23456789"

  /** Every lobby code has this many characters. */
  const CodeLength: nat := 6

  /** `generateLobbyCode`: appends one alphabet character per injected index.
      `picks[i]` plays the part of `Math.floor(Math.random() * 32)` in the
      i-th iteration. */
  method GenerateLobbyCode(picks: seq<nat>) returns (code: string)
    requires |picks| == CodeLength
    requires forall i :: 0 <= i < |picks| ==> picks[i] < |Alphabet|
    ensures |code| == CodeLength
    ensures forall i :: 0 <= i < |code| ==> code[i] == Alphabet[picks[i]]
    ensures forall i :: 0 <= i < |code| ==> code[i] in Alphabet
    ensures forall i :: 0 <= i < |code| ==> code[i] != 'I' && code[i] != 'O' && code[i] != '1' && code[i] != '0'
  {
    code := "";
    for i := 0 to CodeLength
      invariant |code| == i
      invariant forall k :: 0 <= k < i ==> code[k] == Alphabet[picks[k]]
    {
      code := code + [Alphabet[picks[i]]];
    }
    NoLookalikes();
  }

  /** The alphabet leaves out I, O, 1 and 0. */
  lemma NoLookalikes()
    ensures forall k :: 0 <= k < |Alphabet| ==>
              Alphabet[k] != 'I' && Alphabet[k] != 'O' && Alphabet[k] != '1' && Alphabet[k] != '0'
  {
  }

  /** The swap `[a[i], a[j]] = [a[j], a[i]]` on a value. */
  function Swap<T>(s: seq<T>, i: nat, j: nat): (r: seq<T>)
    requires i < |s| && j < |s|
    ensures |r| == |s| && r[i] == s[j] && r[j] == s[i]
    ensures forall k :: 0 <= k < |s| && k != i && k != j ==> r[k] == s[k]
  {
    s[i := s[j]][j := s[i]]
  }

  /** A swap keeps the multiset of elements. */
  lemma SwapPermutes<T>(s: seq<T>, i: nat, j: nat)
    requires i < |s| && j < |s|
    ensures multiset(Swap(s, i, j)) == multiset(s)
  {
  }

  /** Injected swap partners for a list of `n` elements: the loop runs
      i = n-1 down to 1, and the step for `i` uses `partners[n-1-i]` as its
      `j = Math.floor(Math.random() * (i + 1))`, so `0 <= j <= i`. */
  ghost predicate ValidPartners(n: nat, partners: seq<nat>) {
    && |partners| == (if n == 0 then 0 else n - 1)
    && forall k :: 0 <= k < |partners| ==> partners[k] <= n - 1 - k
  }

  /** The steps i, i-1, ..., 1 of the shuffle applied to `s`. */
  ghost function ShuffleSteps<T>(s: seq<T>, i: nat, partners: seq<nat>): seq<T>
    requires ValidPartners(|s|, partners)
    requires i < |s|
    decreases i
  {
    if i == 0 then s
    else ShuffleSteps(Swap(s, i, partners[|s| - 1 - i]), i - 1, partners)
  }

  /** One step taken off the front of a run of steps. */
  lemma ShuffleStep<T>(s: seq<T>, i: nat, partners: seq<nat>)
    requires ValidPartners(|s|, partners)
    requires 0 < i < |s|
    ensures partners[|s| - 1 - i] <= i
    ensures ShuffleSteps(s, i, partners) == ShuffleSteps(Swap(s, i, partners[|s| - 1 - i]), i - 1, partners)
  {
  }

  /** The list `shuffleArray` returns for the injected partners. */
  ghost function Shuffled<T>(s: seq<T>, partners: seq<nat>): (r: seq<T>)
    requires ValidPartners(|s|, partners)
    ensures |r| == |s|
    ensures multiset(r) == multiset(s)
  {
    if |s| == 0 then s
    else
      ShuffleStepsPermutes(s, |s| - 1, partners);
      ShuffleSteps(s, |s| - 1, partners)
  }

  /** Every run of the steps permutes its input. */
  lemma {:induction false} ShuffleStepsPermutes<T>(s: seq<T>, i: nat, partners: seq<nat>)
    requires ValidPartners(|s|, partners)
    requires i < |s|
    ensures |ShuffleSteps(s, i, partners)| == |s|
    ensures multiset(ShuffleSteps(s, i, partners)) == multiset(s)
    decreases i
  {
    if i > 0 {
      SwapPermutes(s, i, partners[|s| - 1 - i]);
      ShuffleStepsPermutes(Swap(s, i, partners[|s| - 1 - i]), i - 1, partners);
    }
  }

  /** `[a[i], a[j]] = [a[j], a[i]]` on the array itself. */
  method SwapElements<T>(a: array<T>, i: nat, j: nat)
    requires i < a.Length && j < a.Length
    modifies a
    ensures a[..] == Swap(old(a[..]), i, j)
  {
    a[i], a[j] := a[j], a[i];
  }

  /** `shuffleArray`: Fisher-Yates on a spread copy of `a`. The method has no
      `modifies` clause, so `a` itself is left as it was. */
  method ShuffleArray<T>(a: array<T>, partners: seq<nat>) returns (shuffled: seq<T>)
    requires ValidPartners(a.Length, partners)
    ensures shuffled == Shuffled(a[..], partners)
    ensures |shuffled| == a.Length
    ensures multiset(shuffled) == multiset(a[..])
  {
    if a.Length == 0 {
      return [];
    }
    var original := a[..];
    var copy := new T[|original|](k requires 0 <= k < |original| => original[k]);
    ghost var target := Shuffled(original, partners);
    ghost var current := copy[..];
    assert current == original;
    var i := copy.Length - 1;
    while i > 0
      invariant 0 <= i < copy.Length == |original|
      invariant current == copy[..] && |current| == copy.Length
      invariant ShuffleSteps(current, i, partners) == target
    {
      var j := partners[copy.Length - 1 - i];
      assert 0 <= j <= i;
      ShuffleStep(current, i, partners);
      ghost var next := Swap(current, i, j);
      assert ShuffleSteps(next, i - 1, partners) == target;
      SwapElements(copy, i, j);
      current := next;
      i := i - 1;
    }
    shuffled := copy[..];
  }

  /** One `{voter, vote}` element of `votesToArray`. */
  datatype VoteEntry = VoteEntry(voter: PlayerId, vote: PlayerId)

  /** `votesToArray`: one entry per key of `votes`, in the object's key order
      `order`. */
  function VotesToArray(votes: map<PlayerId, PlayerId>, order: seq<PlayerId>): (entries: seq<VoteEntry>)
    requires Enumerates(order, votes.Keys)
    ensures |entries| == |order| == |votes|
    ensures forall i :: 0 <= i < |entries| ==>
              entries[i].voter == order[i] && entries[i].voter in votes && entries[i].vote == votes[entries[i].voter]
    ensures forall voter :: voter in votes ==> VoteEntry(voter, votes[voter]) in entries
  {
    EnumerationSize(order, votes.Keys);
    var entries := seq(|order|, i requires 0 <= i < |order| => VoteEntry(order[i], votes[order[i]]));
    assert forall voter :: voter in votes ==> VoteEntry(voter, votes[voter]) in entries by {
      forall voter | voter in votes ensures VoteEntry(voter, votes[voter]) in entries {
        var i :| 0 <= i < |order| && order[i] == voter;
        assert entries[i] == VoteEntry(voter, votes[voter]);
      }
    }
    entries
  }

  /** `getStoryTopics`: one topic per round, eight rounds, no topic twice. */
  function StoryTopics(): (topics: seq<string>)
    ensures |topics| == 8
    ensures forall i, j :: 0 <= i < j < |topics| ==> topics[i] != topics[j]
  {
    [ "Most Epic Party",
      "Worst Date Ever",
      "Craziest Road Trip",
      "Childhood Mishap",
      "Strange Encounter",
      "Embarrassing Moment",
      "Narrowest Escape",
      "Greatest Triumph" ]
  }
}
