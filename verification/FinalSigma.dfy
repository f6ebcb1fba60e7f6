/** When a capital sigma is at the end of a word: `map_uppercase_sigma` (library/alloc/src/str.rs) and the
    condition Final_Sigma of section 3.13 of the Unicode Standard. */
module FinalSigma {
  import opened Utf8

  /** The character tables, which are not part of this model.  `lower` pads its answer with NUL. */
  datatype Tables = Tables(lower: Char -> (Char, Char, Char), cased: Char -> bool, ignorable: Char -> bool)

  const SIGMA: Char := 0x3A3
  const SMALL_SIGMA: Char := 0x3C3
  const SMALL_FINAL_SIGMA: Char := 0x3C2

  // ---------- what the code does ----------

  /** Skip the case-ignorable characters and look at the next one. */
  predicate IgnorableThenCased(t: Tables, cs: seq<Char>) {
    cs != [] && if t.ignorable(cs[0]) then IgnorableThenCased(t, cs[1..]) else t.cased(cs[0])
  }

  function Reversed(cs: seq<Char>): seq<Char> {
    if cs == [] then [] else [cs[|cs| - 1]] + Reversed(cs[..|cs| - 1])
  }

  predicate IsWordFinal(t: Tables, before: seq<Char>, after: seq<Char>) {
    IgnorableThenCased(t, Reversed(before)) && !IgnorableThenCased(t, after)
  }

  /** The character for the sigma at byte `i` of `from`. */
  function MapUppercaseSigma(t: Tables, from: seq<Byte>, i: nat): Char
    requires i + 2 <= |from| && Valid(from[..i]) && Valid(from[i + 2..])
  {
    if IsWordFinal(t, DecodeAll(from[..i]), DecodeAll(from[i + 2..])) then SMALL_FINAL_SIGMA else SMALL_SIGMA
  }

  // ---------- what the standard says ----------

  /** A cased character, then only case-ignorable ones up to the end. */
  predicate Preceded(t: Tables, before: seq<Char>) {
    exists i | 0 <= i < |before| :: t.cased(before[i]) && forall j | i < j < |before| :: t.ignorable(before[j])
  }

  /** Only case-ignorable characters, then a cased one. */
  predicate Followed(t: Tables, after: seq<Char>) {
    exists i | 0 <= i < |after| :: t.cased(after[i]) && forall j | 0 <= j < i :: t.ignorable(after[j])
  }

  predicate StandardFinalSigma(t: Tables, before: seq<Char>, after: seq<Char>) {
    Preceded(t, before) && !Followed(t, after)
  }

  // ---------- how they compare ----------

  /** Among the case-ignorable characters at the start, one that is also cased. */
  predicate HidesCased(t: Tables, cs: seq<Char>) {
    cs != [] && t.ignorable(cs[0]) && (t.cased(cs[0]) || HidesCased(t, cs[1..]))
  }

  lemma {:induction false} ReversedAt(cs: seq<Char>, k: nat)
    requires k < |cs|
    ensures |Reversed(cs)| == |cs| && Reversed(cs)[k] == cs[|cs| - 1 - k]
  {
    if k > 0 {
      ReversedAt(cs[..|cs| - 1], k - 1);
    } else {
      ReversedSize(cs);
    }
  }

  lemma {:induction false} ReversedSize(cs: seq<Char>)
    ensures |Reversed(cs)| == |cs|
  {
    if cs != [] {
      ReversedSize(cs[..|cs| - 1]);
    }
  }

  lemma PrecededBackwards(t: Tables, before: seq<Char>)
    ensures Preceded(t, before) <==> Followed(t, Reversed(before))
  {
    var back := Reversed(before);
    var n := |before|;
    ReversedSize(before);
    if Preceded(t, before) {
      var i :| 0 <= i < n && t.cased(before[i]) && forall j | i < j < n :: t.ignorable(before[j]);
      ReversedAt(before, n - 1 - i);
      forall j | 0 <= j < n - 1 - i ensures t.ignorable(back[j]) {
        ReversedAt(before, j);
      }
    }
    if Followed(t, back) {
      var i :| 0 <= i < n && t.cased(back[i]) && forall j | 0 <= j < i :: t.ignorable(back[j]);
      ReversedAt(before, i);
      assert t.cased(before[n - 1 - i]);
      forall j | n - 1 - i < j < n ensures t.ignorable(before[j]) {
        ReversedAt(before, n - 1 - j);
      }
    }
  }

  /** Skipping all case-ignorable characters misses a cased one among them. */
  lemma {:induction false} SkipVersusStandard(t: Tables, cs: seq<Char>)
    ensures Followed(t, cs) <==> IgnorableThenCased(t, cs) || HidesCased(t, cs)
  {
    if cs != [] {
      SkipVersusStandard(t, cs[1..]);
      FollowedNext(t, cs);
    }
  }

  lemma FollowedNext(t: Tables, cs: seq<Char>)
    requires cs != []
    ensures Followed(t, cs) <==> t.cased(cs[0]) || (t.ignorable(cs[0]) && Followed(t, cs[1..]))
  {
    if t.cased(cs[0]) {
      assert cs[0] == cs[0];
    }
    if Followed(t, cs) {
      var i :| 0 <= i < |cs| && t.cased(cs[i]) && forall j | 0 <= j < i :: t.ignorable(cs[j]);
      if i > 0 {
        assert cs[1..][i - 1] == cs[i];
        assert t.ignorable(cs[0]);
        forall j | 0 <= j < i - 1 ensures t.ignorable(cs[1..][j]) {
          assert cs[1..][j] == cs[j + 1];
        }
      }
    }
    if t.ignorable(cs[0]) && Followed(t, cs[1..]) {
      var i :| 0 <= i < |cs[1..]| && t.cased(cs[1..][i]) && forall j | 0 <= j < i :: t.ignorable(cs[1..][j]);
      assert t.cased(cs[i + 1]);
      forall j | 0 <= j < i + 1 ensures t.ignorable(cs[j]) {
        if j > 0 { assert cs[j] == cs[1..][j - 1]; }
      }
    }
  }

  /** The code decides as the standard does, unless a character that is both cased and case-ignorable stands
      next to the sigma, on a side where skipping finds no cased character behind it, and that side decides. */
  lemma CodeVersusStandard(t: Tables, before: seq<Char>, after: seq<Char>)
    ensures (IsWordFinal(t, before, after) <==> StandardFinalSigma(t, before, after)) <==>
            && !(Blind(t, Reversed(before)) && !Followed(t, after))
            && !(Blind(t, after) && IgnorableThenCased(t, Reversed(before)))
  {
    PrecededBackwards(t, before);
    SkipVersusStandard(t, Reversed(before));
    SkipVersusStandard(t, after);
  }

  /** A cased character among the case-ignorable ones, and no cased character behind them. */
  predicate Blind(t: Tables, cs: seq<Char>) { HidesCased(t, cs) && !IgnorableThenCased(t, cs) }

  lemma {:induction false} NothingHidden(t: Tables, cs: seq<Char>)
    requires forall k | 0 <= k < |cs| :: !(t.cased(cs[k]) && t.ignorable(cs[k]))
    ensures !HidesCased(t, cs)
  {
    if cs != [] {
      NothingHidden(t, cs[1..]);
    }
  }

  /** In particular, it decides as the standard does where no character is both. */
  lemma DisjointTablesAgree(t: Tables, before: seq<Char>, after: seq<Char>)
    requires forall k | 0 <= k < |before| :: !(t.cased(before[k]) && t.ignorable(before[k]))
    requires forall k | 0 <= k < |after| :: !(t.cased(after[k]) && t.ignorable(after[k]))
    ensures IsWordFinal(t, before, after) <==> StandardFinalSigma(t, before, after)
  {
    var back := Reversed(before);
    ReversedSize(before);
    forall k | 0 <= k < |back| ensures !(t.cased(back[k]) && t.ignorable(back[k])) {
      ReversedAt(before, k);
    }
    NothingHidden(t, back);
    NothingHidden(t, after);
    CodeVersusStandard(t, before, after);
  }

  /** U+0345, the combining iota subscript, is both: after it alone, the code does not see a word. */
  lemma IotaSubscriptDiffers(t: Tables)
    requires t.cased(0x345) && t.ignorable(0x345)
    ensures StandardFinalSigma(t, [0x345], []) && !IsWordFinal(t, [0x345], [])
  {
    var before: seq<Char> := [0x345];
    assert t.cased(before[0]);
    assert Reversed(before) == [before[0]] + Reversed(before[..0]) == [before[0]];
  }
}
