/** The two hand-written identifier checks of the services.

    The artist, album and track services test
    `/^[0-9a-fA-F-]{8}-[0-9a-fA-F-]{4}-[0-9a-fA-F-]{4}-[0-9a-fA-F-]{4}-[0-9a-fA-F-]{12}$/`;
    because the character class admits `-`, every group may hold dashes too.
    The user and favorites services test `/^[0-9a-fA-F-]{36}$/`, which does not
    look at the group structure at all. */
module Uuid {
  import opened Common

  /** One character of the class `[0-9a-fA-F-]`. */
  predicate IsHexOrDash(c: char)
  {
    ('0' <= c <= '9') || ('a' <= c <= 'f') || ('A' <= c <= 'F') || c == '-'
  }

  /** `[0-9a-fA-F-]{n}` matches all of `s`. */
  predicate ClassRun(s: string, n: nat)
  {
    |s| == n && forall i :: 0 <= i < |s| ==> IsHexOrDash(s[i])
  }

  /** The grouped pattern, read group by group: a run of 8, a dash, three
      runs of 4 each followed by a dash, and a run of 12, anchored at both
      ends. */
  predicate MatchesGrouped(id: string)
  {
    && |id| == 36
    && ClassRun(id[..8], 8) && id[8] == '-'
    && ClassRun(id[9..13], 4) && id[13] == '-'
    && ClassRun(id[14..18], 4) && id[18] == '-'
    && ClassRun(id[19..23], 4) && id[23] == '-'
    && ClassRun(id[24..], 12)
  }

  /** The flat pattern: 36 characters of the class, anchored at both ends. */
  predicate MatchesFlat(id: string)
  {
    ClassRun(id, 36)
  }

  /** Positions 8, 13, 18 and 23, where the grouped pattern wants a dash. */
  predicate IsDashPosition(i: int)
  {
    i == 8 || i == 13 || i == 18 || i == 23
  }

  /** `validateUUID` of the artist, album and track services. */
  function ValidateGrouped(id: string): (r: Outcome)
    ensures r == Done <==> MatchesGrouped(id)
    ensures r != Done ==> r == Fail(BadRequest("Invalid UUID"))
  {
    if MatchesGrouped(id) then Done else Fail(BadRequest("Invalid UUID"))
  }

  /** `validateUUID` of the user and favorites services. */
  function ValidateFlat(id: string): (r: Outcome)
    ensures r == Done <==> MatchesFlat(id)
    ensures r != Done ==> r == Fail(BadRequest("Invalid UUID"))
  {
    if MatchesFlat(id) then Done else Fail(BadRequest("Invalid UUID"))
  }

  lemma ClassRunSlice(id: string, lo: nat, hi: nat)
    requires lo <= hi <= |id|
    ensures ClassRun(id[lo..hi], hi - lo) <==> forall i :: lo <= i < hi ==> IsHexOrDash(id[i])
  {
    if forall i :: lo <= i < hi ==> IsHexOrDash(id[i]) {
      forall j | 0 <= j < hi - lo ensures IsHexOrDash(id[lo..hi][j]) {
        assert id[lo..hi][j] == id[lo + j];
      }
    }
    if ClassRun(id[lo..hi], hi - lo) {
      forall i | lo <= i < hi ensures IsHexOrDash(id[i]) {
        assert id[i] == id[lo..hi][i - lo];
      }
    }
  }

  /** The grouped pattern accepts exactly the strings of length 36 that carry
      a dash at positions 8, 13, 18 and 23 and only class characters
      elsewhere. */
  lemma GroupedByPosition(id: string)
    ensures MatchesGrouped(id) <==>
      && |id| == 36
      && (forall i :: 0 <= i < 36 && IsDashPosition(i) ==> id[i] == '-')
      && (forall i :: 0 <= i < 36 ==> IsHexOrDash(id[i]))
  {
    if |id| == 36 {
      ClassRunSlice(id, 0, 8);
      ClassRunSlice(id, 9, 13);
      ClassRunSlice(id, 14, 18);
      ClassRunSlice(id, 19, 23);
      ClassRunSlice(id, 24, 36);
      assert id[24..] == id[24..36];
    }
  }

  /** Every identifier the artist, album and track services accept is also
      accepted by the user and favorites services. */
  lemma GroupedImpliesFlat(id: string)
    requires MatchesGrouped(id)
    ensures MatchesFlat(id)
  {
    GroupedByPosition(id);
  }

  /** The converse fails: thirty-six zeros pass the flat check but have no
      dash at position 8. */
  lemma FlatNotGrouped()
    ensures MatchesFlat("000000000000000000000000000000000000")
    ensures !MatchesGrouped("000000000000000000000000000000000000")
  {
    var z := "000000000000000000000000000000000000";
    assert |z| == 36;
    assert z[8] == '0';
  }

  /** So the grouped acceptance set is a strict subset of the flat one. */
  lemma GroupedStrictlyInsideFlat()
    ensures forall id :: MatchesGrouped(id) ==> MatchesFlat(id)
    ensures exists id :: MatchesFlat(id) && !MatchesGrouped(id)
  {
    forall id | MatchesGrouped(id) ensures MatchesFlat(id) {
      GroupedImpliesFlat(id);
    }
    FlatNotGrouped();
  }

  /** Because `-` is in the character class, a string of 36 dashes passes
      the grouped check although it is no UUID. */
  lemma AllDashesPassGrouped()
    ensures MatchesGrouped("------------------------------------")
  {
    var d := "------------------------------------";
    assert |d| == 36;
    GroupedByPosition(d);
  }
}
