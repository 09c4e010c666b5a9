/** The team dropdowns (app.py:163-167, 225-226): the batting side is picked
    from the sorted team list, and the bowling side from that list with the
    batting side filtered out. */
module Teams {

  /** Python's string order: a proper prefix comes first, otherwise the first
      differing character decides. */
  predicate LexLess(a: string, b: string)
    decreases |a|
  {
    |b| > 0 && (|a| == 0 || a[0] < b[0] || (a[0] == b[0] && LexLess(a[1..], b[1..])))
  }

  predicate Sorted(s: seq<string>) {
    forall i, j :: 0 <= i < j < |s| ==> LexLess(s[i], s[j])
  }

  predicate Distinct(s: seq<string>) {
    forall i, j :: 0 <= i < j < |s| ==> s[i] != s[j]
  }

  /** The ten franchises in the order the source lists them (app.py:163-166). */
  const SourceTeams: seq<string> := [
    "Sunrisers Hyderabad", "Mumbai Indians", "Royal Challengers Bengaluru",
    "Kolkata Knight Riders", "Punjab Kings", "Chennai Super Kings",
    "Rajasthan Royals", "Delhi Capitals", "Gujarat Titans", "Lucknow Super Giants"]

  /** `sorted(...)` of those ten names (app.py:163-167), written out in sorted order. */
  const TeamList: seq<string> := [
    "Chennai Super Kings", "Delhi Capitals", "Gujarat Titans", "Kolkata Knight Riders",
    "Lucknow Super Giants", "Mumbai Indians", "Punjab Kings", "Rajasthan Royals",
    "Royal Challengers Bengaluru", "Sunrisers Hyderabad"]

  predicate AdjacentSorted(s: seq<string>) {
    forall i :: 0 <= i < |s| - 1 ==> LexLess(s[i], s[i + 1])
  }

  lemma {:induction false} LexLessIrreflexive(a: string)
    ensures !LexLess(a, a)
    decreases |a|
  {
    if |a| > 0 {
      LexLessIrreflexive(a[1..]);
    }
  }

  lemma {:induction false} LexLessTransitive(a: string, b: string, c: string)
    requires LexLess(a, b) && LexLess(b, c)
    ensures LexLess(a, c)
    decreases |a|
  {
    if |a| > 0 && a[0] == b[0] && b[0] == c[0] {
      LexLessTransitive(a[1..], b[1..], c[1..]);
    }
  }

  /** Neighbouring pairs in order make the whole list sorted. */
  lemma {:induction false} AdjacentSortedIsSorted(s: seq<string>)
    requires AdjacentSorted(s)
    ensures Sorted(s)
    decreases |s|
  {
    if |s| > 1 {
      AdjacentSortedIsSorted(s[1..]);
      forall j | 1 <= j < |s|
        ensures LexLess(s[0], s[j])
      {
        if j > 1 {
          assert LexLess(s[1..][0], s[1..][j - 1]);
          LexLessTransitive(s[0], s[1], s[j]);
        }
      }
      forall i, j | 0 <= i < j < |s|
        ensures LexLess(s[i], s[j])
      {
        if i > 0 {
          assert LexLess(s[1..][i - 1], s[1..][j - 1]);
        }
      }
    }
  }

  lemma SortedIsDistinct(s: seq<string>)
    requires Sorted(s)
    ensures Distinct(s)
  {
    forall i, j | 0 <= i < j < |s|
      ensures s[i] != s[j]
    {
      LexLessIrreflexive(s[i]);
    }
  }

  /** Exchanging two entries keeps the multiset of a list. */
  lemma Swap<T>(s: seq<T>, i: nat, j: nat) returns (r: seq<T>)
    requires i < j < |s|
    ensures |r| == |s| && r[i] == s[j] && r[j] == s[i]
    ensures forall k :: 0 <= k < |s| && k != i && k != j ==> r[k] == s[k]
    ensures multiset(r) == multiset(s)
  {
    r := s[i := s[j]][j := s[i]];
  }

  /** The reordering `sorted` applies to the source's list, on any ten
      entries, is a run of exchanges, so it keeps the multiset. */
  lemma SortOrderPermutes<T>(t: seq<T>)
    requires |t| == 10
    ensures multiset([t[5], t[7], t[8], t[3], t[9], t[1], t[4], t[6], t[2], t[0]]) == multiset(t)
  {
    var s := Swap(t, 0, 5);
    s := Swap(s, 1, 7);
    s := Swap(s, 2, 8);
    s := Swap(s, 4, 9);
    s := Swap(s, 5, 7);
    s := Swap(s, 6, 9);
    s := Swap(s, 7, 9);
    assert s == [t[5], t[7], t[8], t[3], t[9], t[1], t[4], t[6], t[2], t[0]];
  }

  /** The sorted list holds the source's names, each as often as the source does. */
  lemma TeamListPermutesSource()
    ensures multiset(TeamList) == multiset(SourceTeams)
  {
    assert TeamList == [SourceTeams[5], SourceTeams[7], SourceTeams[8], SourceTeams[3], SourceTeams[9], SourceTeams[1], SourceTeams[4], SourceTeams[6], SourceTeams[2], SourceTeams[0]];
    SortOrderPermutes(SourceTeams);
  }

  /** A sorted, distinct permutation of the source's names: that is, `sorted` of them. */
  lemma TeamListSortedAndDistinct()
    ensures |TeamList| == 10 && Sorted(TeamList) && Distinct(TeamList)
    ensures multiset(TeamList) == multiset(SourceTeams)
  {
    TeamListSorted();
    SortedIsDistinct(TeamList);
    TeamListPermutesSource();
  }

  /** The written-out list is in Python's string order; the eighth and ninth
      names share their first letter, so they are compared from the second. */
  lemma TeamListSorted()
    ensures Sorted(TeamList)
  {
    assert LexLess(TeamList[7][1..], TeamList[8][1..]);
    assert AdjacentSorted(TeamList);
    AdjacentSortedIsSorted(TeamList);
  }

  /** `[t for t in teams if t != batting_team]` (app.py:226). */
  function BowlingOptions(teams: seq<string>, batting: string): (r: seq<string>)
    ensures forall t :: t in r <==> t in teams && t != batting
    ensures multiset(r) == multiset(teams)[batting := 0]
  {
    if teams == [] then []
    else
      assert teams == [teams[0]] + teams[1..];
      if teams[0] == batting then BowlingOptions(teams[1..], batting)
      else [teams[0]] + BowlingOptions(teams[1..], batting)
  }

  /** The filter keeps the list's order. */
  lemma {:induction false} BowlingOptionsSorted(teams: seq<string>, batting: string)
    requires Sorted(teams)
    ensures Sorted(BowlingOptions(teams, batting))
  {
    if teams != [] {
      BowlingOptionsSorted(teams[1..], batting);
      var rest := BowlingOptions(teams[1..], batting);
      if teams[0] != batting {
        forall k | 0 <= k < |rest|
          ensures LexLess(teams[0], rest[k])
        {
          assert rest[k] in teams[1..];
          var m :| 0 <= m < |teams[1..]| && teams[1..][m] == rest[k];
          assert teams[m + 1] == rest[k];
        }
      }
    }
  }

  /** In a list of distinct teams that holds the batting side, exactly one entry is dropped. */
  lemma DropsExactlyOne(teams: seq<string>, batting: string)
    requires Distinct(teams) && batting in teams
    ensures |BowlingOptions(teams, batting)| == |teams| - 1
  {
    DistinctCountsOnce(teams, batting);
    assert |multiset(BowlingOptions(teams, batting))| == |multiset(teams)| - 1;
  }

  lemma {:induction false} DistinctCountsOnce(teams: seq<string>, t: string)
    requires Distinct(teams) && t in teams
    ensures multiset(teams)[t] == 1
  {
    if teams[0] == t {
      assert t !in teams[1..];
      assert teams == [teams[0]] + teams[1..];
    } else {
      assert Distinct(teams[1..]);
      DistinctCountsOnce(teams[1..], t);
      assert teams == [teams[0]] + teams[1..];
    }
  }

  /** Entries before the batting side pass through the filter unchanged. */
  lemma KeepsLeadingTwo(teams: seq<string>, batting: string)
    requires |teams| >= 2 && teams[0] != batting && teams[1] != batting
    ensures |BowlingOptions(teams, batting)| >= 2
    ensures BowlingOptions(teams, batting)[..2] == teams[..2]
  {
  }

  /** Picking the batting side from index k >= 2 of a sorted list leaves a sorted
      list one shorter, whose index 1 is the list's own index 1. */
  lemma SelectionFromSortedList(teams: seq<string>, k: nat)
    requires Sorted(teams) && 2 <= k < |teams|
    ensures var options := BowlingOptions(teams, teams[k]);
      |options| == |teams| - 1 && Sorted(options) && options[1] == teams[1] &&
      options[1] != teams[k]
  {
    SortedIsDistinct(teams);
    DropsExactlyOne(teams, teams[k]);
    BowlingOptionsSorted(teams, teams[k]);
    KeepsLeadingTwo(teams, teams[k]);
    assert BowlingOptions(teams, teams[k])[1] == BowlingOptions(teams, teams[k])[..2][1];
  }

  /** With the default batting side (index 5), Mumbai Indians, the bowling
      dropdown offers the nine others in order and defaults (index 1) to
      Delhi Capitals, which is never the batting side. */
  lemma DefaultSelection()
    ensures TeamList[5] == "Mumbai Indians"
    ensures var options := BowlingOptions(TeamList, TeamList[5]);
      |options| == 9 && Sorted(options) && options[1] == "Delhi Capitals" &&
      options[1] != TeamList[5]
  {
    var teams := TeamList;
    TeamListSorted();
    SelectionFromSortedList(teams, 5);
    assert BowlingOptions(teams, teams[5])[1] == teams[1];
  }
}
