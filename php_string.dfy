/** The PHP string primitives the printing code relies on: `str_replace` with a single search
    string and with parallel search/replace arrays, `explode`/`implode` as an independent
    description of what a replace-all does, and PHP's truthiness of strings. */
module PhpString {

  /** `k` occurs in `s` starting at index `i`. */
  ghost predicate OccursAt(s: string, k: string, i: int)
  {
    0 <= i && i + |k| <= |s| && s[i..i + |k|] == k
  }

  /** `k` occurs somewhere in `s`. */
  ghost predicate Contains(s: string, k: string)
  {
    exists i :: OccursAt(s, k, i)
  }

  /** PHP's truthiness of a string: only "" and "0" are falsy. */
  predicate Truthy(s: string)
  {
    s != "" && s != "0"
  }

  /** PHP's `empty()` on a string. */
  predicate IsEmpty(s: string)
  {
    !Truthy(s)
  }

  function Min(a: int, b: int): int
  {
    if a <= b then a else b
  }

  /** `str_replace(k, r, s)` with one search string: scan left to right, replace every
      non-overlapping occurrence of `k` by `r`; the inserted text is not scanned again.
      An empty search string leaves the subject as it is. */
  function ReplaceAll(s: string, k: string, r: string): (res: string)
    ensures k == [] ==> res == s
    ensures !Contains(s, k) ==> res == s
    decreases |s|
  {
    if k == [] || |s| < |k| then s
    else if s[..|k|] == k then
      assert OccursAt(s, k, 0);
      r + ReplaceAll(s[|k|..], k, r)
    else
      assert !Contains(s, k) ==> !Contains(s[1..], k) by {
        forall i | OccursAt(s[1..], k, i) ensures OccursAt(s, k, i + 1) {
          assert s[1..][i..i + |k|] == s[i + 1..i + 1 + |k|];
        }
      }
      [s[0]] + ReplaceAll(s[1..], k, r)
  }

  /** `explode(k, s)`: the pieces of `s` between the occurrences of `k`, found left to right. */
  function Split(s: string, k: string): (pieces: seq<string>)
    requires k != []
    ensures |pieces| >= 1
    decreases |s|
  {
    if |s| < |k| then [s]
    else if s[..|k|] == k then [[]] + Split(s[|k|..], k)
    else
      var rest := Split(s[1..], k);
      [[s[0]] + rest[0]] + rest[1..]
  }

  /** `implode(sep, pieces)`. */
  function Join(pieces: seq<string>, sep: string): string
    requires |pieces| >= 1
  {
    if |pieces| == 1 then pieces[0] else pieces[0] + sep + Join(pieces[1..], sep)
  }

  lemma JoinExtendHead(c: char, pieces: seq<string>, sep: string)
    requires |pieces| >= 1
    ensures Join([[c] + pieces[0]] + pieces[1..], sep) == [c] + Join(pieces, sep)
  {
    var q := [[c] + pieces[0]] + pieces[1..];
    assert q[1..] == pieces[1..];
  }

  lemma JoinStartsWithFirst(pieces: seq<string>, sep: string)
    requires |pieces| >= 1
    ensures pieces[0] <= Join(pieces, sep)
  {
  }

  /** Splitting at `k` and joining back with `k` gives the original string. */
  lemma {:induction false} JoinSplit(s: string, k: string)
    requires k != []
    ensures Join(Split(s, k), k) == s
    decreases |s|
  {
    if |s| < |k| {
    } else if s[..|k|] == k {
      var rest := Split(s[|k|..], k);
      JoinSplit(s[|k|..], k);
      assert ([[]] + rest)[1..] == rest;
      assert s == k + s[|k|..];
    } else {
      JoinSplit(s[1..], k);
      JoinExtendHead(s[0], Split(s[1..], k), k);
      assert s == [s[0]] + s[1..];
    }
  }

  /** No piece of a split contains the separator. */
  lemma {:induction false} SplitPiecesAvoidSeparator(s: string, k: string)
    requires k != []
    ensures forall i :: 0 <= i < |Split(s, k)| ==> !Contains(Split(s, k)[i], k)
    decreases |s|
  {
    var pieces := Split(s, k);
    if |s| < |k| {
    } else if s[..|k|] == k {
      var rest := Split(s[|k|..], k);
      SplitPiecesAvoidSeparator(s[|k|..], k);
      forall i | 1 <= i < |pieces| ensures !Contains(pieces[i], k) {
        assert pieces[i] == rest[i - 1];
      }
    } else {
      var rest := Split(s[1..], k);
      SplitPiecesAvoidSeparator(s[1..], k);
      JoinSplit(s[1..], k);
      JoinStartsWithFirst(rest, k);
      var head := [s[0]] + rest[0];
      assert head <= s;
      forall j ensures !OccursAt(head, k, j) {
        if 0 <= j && j + |k| <= |head| {
          if j == 0 {
            assert head[..|k|] == s[..|k|];
          } else {
            assert head[j..j + |k|] == rest[0][j - 1..j - 1 + |k|];
            assert !OccursAt(rest[0], k, j - 1);
          }
        }
      }
      assert pieces[0] == head;
      forall i | 1 <= i < |pieces| ensures !Contains(pieces[i], k) {
        assert pieces[i] == rest[i];
      }
    }
  }

  /** Replace-all is implode of the explode: every occurrence found by `Split` becomes `r`,
      and the text between occurrences is kept as it is. */
  lemma {:induction false} ReplaceAllIsJoinOfSplit(s: string, k: string, r: string)
    requires k != []
    ensures ReplaceAll(s, k, r) == Join(Split(s, k), r)
    decreases |s|
  {
    if |s| < |k| {
    } else if s[..|k|] == k {
      var rest := Split(s[|k|..], k);
      ReplaceAllIsJoinOfSplit(s[|k|..], k, r);
      assert ([[]] + rest)[1..] == rest;
    } else {
      ReplaceAllIsJoinOfSplit(s[1..], k, r);
      JoinExtendHead(s[0], Split(s[1..], k), r);
    }
  }

  /** `k` does not occur in `s[1..]` when it does not occur in `s`. */
  lemma NoOccurrenceInTail(s: string, k: string)
    requires |s| >= 1 && !Contains(s, k)
    ensures !Contains(s[1..], k)
  {
    forall i | OccursAt(s[1..], k, i) ensures OccursAt(s, k, i + 1) {
      assert s[1..][i..i + |k|] == s[i + 1..i + 1 + |k|];
    }
  }

  /** Without an occurrence of the key, `Split` gives the whole string as its only piece. */
  lemma {:induction false} SplitWithoutKey(s: string, k: string)
    requires k != [] && !Contains(s, k)
    ensures Split(s, k) == [s]
    decreases |s|
  {
    if |s| >= |k| {
      assert !OccursAt(s, k, 0);
      NoOccurrenceInTail(s, k);
      SplitWithoutKey(s[1..], k);
      assert [s[0]] + s[1..] == s;
    }
  }

  /** The occurrence of `k` at `i` is the leftmost one, and `s[1..]` has it at `i - 1`. */
  lemma ShiftFirstOccurrence(s: string, k: string, i: int)
    requires 0 < i && OccursAt(s, k, i)
    requires forall j :: 0 <= j < i ==> !OccursAt(s, k, j)
    ensures OccursAt(s[1..], k, i - 1)
    ensures forall j :: 0 <= j < i - 1 ==> !OccursAt(s[1..], k, j)
  {
    assert s[1..][i - 1..i - 1 + |k|] == s[i..i + |k|];
    forall j | 0 <= j < i - 1 ensures !OccursAt(s[1..], k, j) {
      if OccursAt(s[1..], k, j) {
        assert s[1..][j..j + |k|] == s[j + 1..j + 1 + |k|];
        assert OccursAt(s, k, j + 1);
      }
    }
  }

  /** `Split` cuts at the leftmost occurrence of the key: the first piece is the text before
      it, and the other pieces are the split of what follows that occurrence. With
      `SplitWithoutKey` this fixes every piece, overlapping keys included. */
  lemma {:induction false} SplitAtFirstOccurrence(s: string, k: string, i: int)
    requires k != [] && OccursAt(s, k, i)
    requires forall j :: 0 <= j < i ==> !OccursAt(s, k, j)
    ensures Split(s, k) == [s[..i]] + Split(s[i + |k|..], k)
    decreases i
  {
    if i == 0 {
      assert s[..|k|] == k;
    } else {
      assert !OccursAt(s, k, 0);
      ShiftFirstOccurrence(s, k, i);
      SplitAtFirstOccurrence(s[1..], k, i - 1);
      var rest := Split(s[1..], k);
      assert s[1..][i - 1 + |k|..] == s[i + |k|..];
      assert rest[0] == s[1..][..i - 1];
      assert [s[0]] + s[1..][..i - 1] == s[..i];
    }
  }

  /** `ReplaceAll` replaces the leftmost occurrence and carries on after it, so occurrences that
      overlap an earlier replaced one are not replaced. */
  lemma ReplaceAllAtFirstOccurrence(s: string, k: string, r: string, i: int)
    requires k != [] && OccursAt(s, k, i)
    requires forall j :: 0 <= j < i ==> !OccursAt(s, k, j)
    ensures ReplaceAll(s, k, r) == s[..i] + r + ReplaceAll(s[i + |k|..], k, r)
  {
    var rest := s[i + |k|..];
    var tail := Split(rest, k);
    SplitAtFirstOccurrence(s, k, i);
    ReplaceAllIsJoinOfSplit(s, k, r);
    ReplaceAllIsJoinOfSplit(rest, k, r);
    assert ([s[..i]] + tail)[1..] == tail;
  }

  /** Overlapping occurrences: in "aaa" only the occurrence of "aa" at 0 is replaced. */
  lemma ReplaceAllSkipsOverlap()
    ensures ReplaceAll("aaa", "aa", "X") == "Xa"
  {
    ReplaceAllAtFirstOccurrence("aaa", "aa", "X", 0);
    assert "aaa"[2..] == "a";
  }

  /** A replace-all with a key that occurs inserts the replacement somewhere. */
  lemma {:induction false} ReplaceAllInsertsReplacement(s: string, k: string, r: string)
    requires k != [] && Contains(s, k)
    ensures Contains(ReplaceAll(s, k, r), r)
    decreases |s|
  {
    var res := ReplaceAll(s, k, r);
    var i :| OccursAt(s, k, i);
    if s[..|k|] == k {
      assert res[..|r|] == r;
      assert OccursAt(res, r, 0);
    } else {
      assert i != 0;
      assert OccursAt(s[1..], k, i - 1) by {
        assert s[1..][i - 1..i - 1 + |k|] == s[i..i + |k|];
      }
      ReplaceAllInsertsReplacement(s[1..], k, r);
      var j :| OccursAt(ReplaceAll(s[1..], k, r), r, j);
      assert res == [s[0]] + ReplaceAll(s[1..], k, r);
      assert res[j + 1..j + 1 + |r|] == ReplaceAll(s[1..], k, r)[j..j + |r|];
      assert OccursAt(res, r, j + 1);
    }
  }

  /** `str_replace($search, $replace, $subject)` with arrays walks the search strings in order and
      replaces each one in the whole current subject; this folds `ReplaceAll` over the pairs. */
  function ReplacePairs(pairs: seq<(string, string)>, s: string): string
  {
    if pairs == [] then s
    else
      var last := pairs[|pairs| - 1];
      ReplaceAll(ReplacePairs(pairs[..|pairs| - 1], s), last.0, last.1)
  }

  /** A subject that contains none of the search strings comes back unchanged. */
  lemma {:induction false} ReplacePairsWithoutKeys(pairs: seq<(string, string)>, s: string)
    requires forall i :: 0 <= i < |pairs| ==> !Contains(s, pairs[i].0)
    ensures ReplacePairs(pairs, s) == s
  {
    if pairs != [] {
      var init := pairs[..|pairs| - 1];
      assert forall i :: 0 <= i < |init| ==> init[i] == pairs[i];
      ReplacePairsWithoutKeys(init, s);
    }
  }

  /** The pairs act in array order: the first block of pairs is applied in full, then the second. */
  lemma {:induction false} ReplacePairsConcat(first: seq<(string, string)>, second: seq<(string, string)>, s: string)
    ensures ReplacePairs(first + second, s) == ReplacePairs(second, ReplacePairs(first, s))
    decreases |second|
  {
    if second == [] {
      assert first + second == first;
    } else {
      var n := |second|;
      var all := first + second;
      assert all[..|all| - 1] == first + second[..n - 1];
      assert all[|all| - 1] == second[n - 1];
      ReplacePairsConcat(first, second[..n - 1], s);
    }
  }

  /** A later search string also matches text that an earlier pair inserted. */
  lemma LaterKeyRewritesEarlierValue(k1: string, v1: string, k2: string, v2: string)
    requires k1 != []
    ensures ReplacePairs([(k1, v1), (k2, v2)], k1) == ReplaceAll(v1, k2, v2)
  {
    var pairs := [(k1, v1), (k2, v2)];
    assert pairs[..1] == [(k1, v1)];
    assert pairs[..1][..0] == [];
    assert k1[..|k1|] == k1 && k1[|k1|..] == [];
    assert ReplaceAll(k1, k1, v1) == v1 + ReplaceAll([], k1, v1) == v1;
    assert ReplacePairs(pairs[..1], k1) == ReplaceAll(ReplacePairs([], k1), k1, v1) == v1;
  }

  /** PHP pairs `$search[i]` with `$replace[i]`; a missing replacement is the empty string. */
  function ZipReplacements(search: seq<string>, replace: seq<string>): seq<(string, string)>
  {
    seq(|search|, i requires 0 <= i < |search| => (search[i], if i < |replace| then replace[i] else ""))
  }

  /** `str_replace` called with a search array and a replace array. */
  method StrReplace(search: seq<string>, replace: seq<string>, subject: string) returns (result: string)
    ensures result == ReplacePairs(ZipReplacements(search, replace), subject)
  {
    var pairs := ZipReplacements(search, replace);
    result := subject;
    for i := 0 to |search|
      invariant result == ReplacePairs(pairs[..i], subject)
    {
      var value := if i < |replace| then replace[i] else "";
      assert pairs[..i + 1][..i] == pairs[..i];
      assert pairs[i] == (search[i], value);
      result := ReplaceAll(result, search[i], value);
    }
    assert pairs[..|search|] == pairs;
  }
}
