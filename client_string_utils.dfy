/**
 * client/src/utils/string.utils.ts: meeting ids of random characters grouped
 * by four, and avatar URLs seeded with such an id. `Math.random` is replaced by
 * the sequence of character indices the caller supplies, one per character.
 */
module StringUtils {

  /** The alphabet meeting ids are drawn from. */
  const Characters: string := "abcdefghijklmnopqrstuvwxyz0123456789"

  /** The default `length` of `generateMeetingId`. */
  const DefaultLength: int := 8

  /** The avatar URL of `getGravatarUrl` without its seed. */
  const DicebearPrefix: string := "https://api.dicebear.com/9.x/adventurer-neutral/svg?radius=0&glassesProbability=10&seed="

  /** `length` iterations of the loop run, none when `length` is not positive. */
  function Iterations(length: int): nat
  {
    if length < 0 then 0 else length
  }

  ghost predicate ValidPicks(picks: seq<nat>)
  {
    forall i :: 0 <= i < |picks| ==> picks[i] < |Characters|
  }

  /** The id after the first `k` iterations: each appends a character and, after every fourth one but the last, a dash. */
  function MeetingIdPrefix(picks: seq<nat>, length: int, k: nat): string
    requires k <= |picks| && ValidPicks(picks)
  {
    if k == 0 then ""
    else
      var i := k - 1;
      MeetingIdPrefix(picks, length, i) + [Characters[picks[i]]]
        + (if (i + 1) % 4 == 0 && i != length - 1 then "-" else "")
  }

  /** The id `generateMeetingId(length)` builds from the indices `picks`. */
  function MeetingIdOf(picks: seq<nat>, length: int): string
    requires |picks| == Iterations(length) && ValidPicks(picks)
  {
    MeetingIdPrefix(picks, length, |picks|)
  }

  method GenerateMeetingId(length: int, randomIndices: seq<nat>) returns (meetingId: string)
    requires |randomIndices| == Iterations(length)
    requires ValidPicks(randomIndices)
    ensures meetingId == MeetingIdOf(randomIndices, length)
  {
    meetingId := "";
    var i := 0;
    while i < length
      invariant 0 <= i <= Iterations(length)
      invariant meetingId == MeetingIdPrefix(randomIndices, length, i)
    {
      var randomIndex := randomIndices[i];
      meetingId := meetingId + [Characters[randomIndex]];
      if (i + 1) % 4 == 0 && i != length - 1 {
        meetingId := meetingId + "-";
      }
      i := i + 1;
    }
  }

  /** The avatar URL: the fixed prefix followed by a meeting id of the default length. */
  method GetGravatarUrl(randomIndices: seq<nat>) returns (url: string)
    requires |randomIndices| == DefaultLength
    requires ValidPicks(randomIndices)
    ensures url == DicebearPrefix + MeetingIdOf(randomIndices, DefaultLength)
    ensures |url| == |DicebearPrefix| + 9 && url[..|DicebearPrefix|] == DicebearPrefix
    ensures url[|DicebearPrefix| + 4] == '-'
  {
    var id := GenerateMeetingId(DefaultLength, randomIndices);
    DefaultShape(randomIndices);
    url := DicebearPrefix + id;
  }

  // ---------------------------------------------------------------------------
  // Shape of a meeting id
  // ---------------------------------------------------------------------------

  /** Where the `i`-th character and the dash after it land. */
  lemma PositionArithmetic(i: nat)
    ensures (i + i / 4) % 5 != 4
    ensures (i + 1) % 4 == 0 ==> (i + i / 4 + 1) % 5 == 4 && (i + 1) / 4 == i / 4 + 1
    ensures (i + 1) % 4 != 0 ==> (i + 1) / 4 == i / 4
  {
    var q, r := i / 4, i % 4;
    assert i == 4 * q + r;
  }

  lemma AlphabetHasNoDash()
    ensures '-' !in Characters
  {
  }

  /** Integer division by four is monotonic. */
  lemma QuarterMonotonic(a: nat, b: nat)
    requires a <= b
    ensures a / 4 <= b / 4
  {
  }

  /** The dashes written by the first `k` of `n` iterations. */
  function DashesAfter(k: nat, n: int): nat
  {
    if k < n then k / 4 else if k == 0 then 0 else (k - 1) / 4
  }

  /** After `k` iterations: `k` characters and a dash after every fourth one but the very last. */
  lemma {:induction false} PrefixLength(picks: seq<nat>, n: int, k: nat)
    requires |picks| == Iterations(n) && ValidPicks(picks) && k <= |picks|
    ensures |MeetingIdPrefix(picks, n, k)| == k + DashesAfter(k, n)
  {
    if k > 0 {
      PrefixLength(picks, n, k - 1);
      PositionArithmetic(k - 1);
    }
  }

  /** One more iteration appends the character and perhaps a dash. */
  lemma StepAppends(picks: seq<nat>, n: int, k: nat)
    requires |picks| == Iterations(n) && ValidPicks(picks) && 0 < k <= |picks|
    ensures var before := MeetingIdPrefix(picks, n, k - 1);
      var p := MeetingIdPrefix(picks, n, k);
      && |before| == (k - 1) + (k - 1) / 4
      && p[..|before|] == before
      && p[|before|] == Characters[picks[k - 1]]
      && |p| == |before| + 1 + (if k % 4 == 0 && k != n then 1 else 0)
      && (k % 4 == 0 && k != n ==> p[|before| + 1] == '-')
  {
    PrefixLength(picks, n, k - 1);
  }

  /** Character `i` sits at position `i + i/4`. */
  lemma {:induction false} PrefixChars(picks: seq<nat>, n: int, k: nat)
    requires |picks| == Iterations(n) && ValidPicks(picks) && k <= |picks|
    ensures CharLayout(MeetingIdPrefix(picks, n, k), picks, k)
  {
    if k > 0 {
      PrefixChars(picks, n, k - 1);
      StepAppends(picks, n, k);
      CharLayoutStep(MeetingIdPrefix(picks, n, k - 1), MeetingIdPrefix(picks, n, k), picks, k);
    }
  }

  /** The first `k` picked characters stand at the positions `i + i/4`. */
  ghost predicate CharLayout(p: string, picks: seq<nat>, k: nat)
    requires k <= |picks| && ValidPicks(picks)
  {
    forall i :: 0 <= i < k ==> i + i / 4 < |p| && p[i + i / 4] == Characters[picks[i]]
  }

  /** Appending the `k`-th character after the first `k - 1` keeps them in place and puts it at its position. */
  lemma CharLayoutStep(before: string, p: string, picks: seq<nat>, k: nat)
    requires 0 < k <= |picks| && ValidPicks(picks) && CharLayout(before, picks, k - 1)
    requires |before| == (k - 1) + (k - 1) / 4 && |before| < |p|
    requires p[..|before|] == before && p[|before|] == Characters[picks[k - 1]]
    ensures CharLayout(p, picks, k)
  {
    forall i | 0 <= i < k
      ensures i + i / 4 < |p| && p[i + i / 4] == Characters[picks[i]]
    {
      if i < k - 1 {
        CharSurvivesStep(before, p, picks[i], i, k - 1);
      }
    }
  }

  /** A character already placed in `before` stays where it is once `before` is extended. */
  lemma CharSurvivesStep(before: string, p: string, pick: nat, i: nat, m: nat)
    requires i < m && |before| == m + m / 4 && |before| <= |p| && p[..|before|] == before
    requires pick < |Characters|
    requires i + i / 4 < |before| && before[i + i / 4] == Characters[pick]
    ensures i + i / 4 < |p| && p[i + i / 4] == Characters[pick]
  {
    QuarterMonotonic(i, m);
    SameBeforeEnd(before, p, i + i / 4);
  }

  /** Dashes stand exactly at the positions `4, 9, 14, ...`; every other position holds an alphabet character. */
  lemma {:induction false} PrefixDashes(picks: seq<nat>, n: int, k: nat)
    requires |picks| == Iterations(n) && ValidPicks(picks) && k <= |picks|
    ensures DashLayout(MeetingIdPrefix(picks, n, k))
  {
    if k > 0 {
      PrefixDashes(picks, n, k - 1);
      StepAppends(picks, n, k);
      DashLayoutStep(MeetingIdPrefix(picks, n, k - 1), MeetingIdPrefix(picks, n, k), picks[k - 1], k, n);
    }
  }

  /** Dashes exactly at the positions `4, 9, 14, ...`, alphabet characters everywhere else. */
  ghost predicate DashLayout(p: string)
  {
    && (forall q :: 0 <= q < |p| ==> (p[q] == '-' <==> q % 5 == 4))
    && (forall q :: 0 <= q < |p| ==> p[q] == '-' || p[q] in Characters)
  }

  /** Appending the `k`-th character, and a dash after a multiple of four, keeps the layout. */
  lemma DashLayoutStep(before: string, p: string, pick: nat, k: nat, n: int)
    requires k > 0 && pick < |Characters| && DashLayout(before)
    requires |before| == (k - 1) + (k - 1) / 4
    requires |p| == |before| + 1 + (if k % 4 == 0 && k != n then 1 else 0)
    requires p[..|before|] == before && p[|before|] == Characters[pick]
    requires k % 4 == 0 && k != n ==> p[|before| + 1] == '-'
    ensures DashLayout(p)
  {
    AlphabetHasNoDash();
    forall q | 0 <= q < |p|
      ensures (p[q] == '-' <==> q % 5 == 4) && (p[q] == '-' || p[q] in Characters)
    {
      if q < |before| {
        SameBeforeEnd(before, p, q);
      } else {
        NewSlots(k, q - |before|);
      }
    }
  }

  /** The slot of the `k`-th character is no dash slot; the slot after it is one when `k` is a multiple of four. */
  lemma NewSlots(k: nat, offset: nat)
    requires k > 0 && offset <= 1 && (offset == 1 ==> k % 4 == 0)
    ensures ((k - 1) + (k - 1) / 4 + offset) % 5 == 4 <==> offset == 1
  {
    PositionArithmetic(k - 1);
  }

  lemma SameBeforeEnd(before: string, p: string, q: nat)
    requires |before| <= |p| && p[..|before|] == before && q < |before|
    ensures p[q] == before[q]
  {
    assert p[q] == p[..|before|][q];
  }

  /**
   * For `length >= 1`: `length` alphabet characters and `(length-1)/4` dashes;
   * character `i` sits at `i + i/4`, the dashes at `4, 9, 14, ...`, and the id
   * does not end with a dash. A non-positive `length` gives the empty id.
   */
  lemma MeetingIdShape(picks: seq<nat>, length: int)
    requires |picks| == Iterations(length) && ValidPicks(picks)
    ensures length <= 0 ==> MeetingIdOf(picks, length) == ""
    ensures length >= 1 ==>
      var id := MeetingIdOf(picks, length);
      && |id| == length + (length - 1) / 4
      && (forall i :: 0 <= i < length ==> id[i + i / 4] == Characters[picks[i]])
      && (forall q :: 0 <= q < |id| ==> (id[q] == '-' <==> q % 5 == 4))
      && (forall q :: 0 <= q < |id| ==> id[q] == '-' || id[q] in Characters)
      && id[|id| - 1] != '-'
  {
    PrefixLength(picks, length, |picks|);
    PrefixChars(picks, length, |picks|);
    PrefixDashes(picks, length, |picks|);
    if length >= 1 {
      PositionArithmetic(length - 1);
    }
  }

  /** With the default length the id has the shape `xxxx-xxxx`. */
  lemma DefaultShape(picks: seq<nat>)
    requires |picks| == DefaultLength && ValidPicks(picks)
    ensures var id := MeetingIdOf(picks, DefaultLength);
      && |id| == 9 && id[4] == '-'
      && forall q :: 0 <= q < 9 && q != 4 ==> id[q] in Characters
  {
    PrefixLength(picks, DefaultLength, |picks|);
    PrefixDashes(picks, DefaultLength, |picks|);
    NineCharacterLayout(MeetingIdOf(picks, DefaultLength));
  }

  lemma NineCharacterLayout(id: string)
    requires |id| == 9 && DashLayout(id)
    ensures id[4] == '-' && forall q :: 0 <= q < 9 && q != 4 ==> id[q] in Characters
  {
    forall q | 0 <= q < 9 && q != 4
      ensures id[q] in Characters
    {
      assert q % 5 != 4;
    }
  }
}
