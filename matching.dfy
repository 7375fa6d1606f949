/**
  Match scoring and listing. The score of a candidate for a user is a weighted
  ratio of shared hobbies, values and languages and of equal relationship goals,
  communication style and love language; the weights of the denominator come
  from the user's side only. Listing filters the stored profiles, scores them,
  redacts two fields, sorts by score (stably, highest first) and truncates.
*/
module Matching {
  import opened Wrappers
  import opened Seqs
  import opened Errors
  import opened Schemas
  import opened Profiles

  /** `len(set(a) & set(b))`. */
  function Common(a: seq<string>, b: seq<string>): nat {
    |Elems(a) * Elems(b)|
  }

  /** The weighted count of what the two profiles share. */
  function Numerator(user: UserProfile, other: UserProfile): nat {
    3 * Common(user.hobbies, other.hobbies)
    + (if user.relationshipGoals == other.relationshipGoals then 5 else 0)
    + 4 * Common(user.values, other.values)
    + 2 * Common(user.languages, other.languages)
    + (if user.communicationStyle == other.communicationStyle then 3 else 0)
    + (if user.loveLanguage == other.loveLanguage then 3 else 0)
  }

  /** The total weight, taken from the user's list lengths alone; never below 11. */
  function Denominator(user: UserProfile): (d: nat)
    ensures d >= 11
  {
    (if user.hobbies != [] then |user.hobbies| * 3 else 0)
    + 5
    + (if user.values != [] then |user.values| * 4 else 0)
    + (if user.languages != [] then |user.languages| * 2 else 0)
    + 6
  }

  /** `calculate_match_score`: the score of `other` for `user`, a percentage in [0, 100]. */
  function MatchScore(user: UserProfile, other: UserProfile): (r: real)
    ensures 0.0 <= r <= 100.0
  {
    var num := Numerator(user, other);
    var den := Denominator(user);
    NumeratorBounded(user, other);
    RatioBounds(num, den);
    if den > 0 then (num as real / den as real) * 100.0 else 0.0
  }

  lemma RatioBounds(num: nat, den: nat)
    requires num <= den
    ensures den > 0 ==> 0.0 <= (num as real / den as real) * 100.0 <= 100.0
  {
    if den > 0 {
      var q := num as real / den as real;
      assert q * den as real == num as real;
      assert q >= 0.0;
      assert q <= 1.0;
    }
  }

  /** No more can be shared than the user's own list holds. */
  lemma CommonBounded(a: seq<string>, b: seq<string>)
    ensures Common(a, b) <= |a|
    ensures Common(a, b) <= |Elems(a)|
  {
    SubsetCard(Elems(a) * Elems(b), Elems(a));
    ElemsCard(a);
  }

  lemma NumeratorBounded(user: UserProfile, other: UserProfile)
    ensures Numerator(user, other) <= Denominator(user)
  {
    CommonBounded(user.hobbies, other.hobbies);
    CommonBounded(user.values, other.values);
    CommonBounded(user.languages, other.languages);
  }

  /** The `else 0` branch is dead: the score is always 100 times the weighted ratio. */
  lemma ScoreIsRatio(user: UserProfile, other: UserProfile)
    ensures MatchScore(user, other) * (Denominator(user) as real) == 100.0 * (Numerator(user, other) as real)
  {
    ScoreValue(user, other);
    RatioScaled(MatchScore(user, other), Numerator(user, other), Denominator(user));
  }

  lemma ScoreValue(user: UserProfile, other: UserProfile)
    ensures MatchScore(user, other) == (Numerator(user, other) as real / Denominator(user) as real) * 100.0
  {
  }

  lemma RatioScaled(score: real, num: nat, den: nat)
    requires den > 0 && score == (num as real / den as real) * 100.0
    ensures score * (den as real) == 100.0 * (num as real)
  {
    var q := num as real / den as real;
    assert q * den as real == num as real;
  }

  /** A profile whose hobbies, values and languages hold no duplicates scores 100 against itself. */
  lemma SelfScoreIsHundred(p: UserProfile)
    requires NoDuplicates(p.hobbies) && NoDuplicates(p.values) && NoDuplicates(p.languages)
    ensures MatchScore(p, p) == 100.0
  {
    ElemsCard(p.hobbies);
    ElemsCard(p.values);
    ElemsCard(p.languages);
    assert Elems(p.hobbies) * Elems(p.hobbies) == Elems(p.hobbies);
    assert Elems(p.values) * Elems(p.values) == Elems(p.values);
    assert Elems(p.languages) * Elems(p.languages) == Elems(p.languages);
    assert Numerator(p, p) == Denominator(p);
    RatioOne(Denominator(p));
  }

  lemma RatioOne(n: nat)
    requires n > 0
    ensures (n as real / n as real) * 100.0 == 100.0
  {
  }

  /** Empty lists and differing relationship goals, style and love language give 0. */
  lemma NothingSharedScoresZero(user: UserProfile, other: UserProfile)
    requires user.hobbies == [] && user.values == [] && user.languages == []
    requires user.relationshipGoals != other.relationshipGoals
    requires user.communicationStyle != other.communicationStyle
    requires user.loveLanguage != other.loveLanguage
    ensures MatchScore(user, other) == 0.0
  {
    assert Elems<string>([]) == {};
  }

  /** Two equal empty fields count as a match: the scalar bonuses compare by plain equality. */
  lemma EmptyScalarsMatch(user: UserProfile, other: UserProfile)
    requires user.hobbies == [] && user.values == [] && user.languages == []
    requires user.relationshipGoals == other.relationshipGoals == ""
    requires user.communicationStyle == other.communicationStyle == ""
    requires user.loveLanguage == other.loveLanguage == ""
    ensures MatchScore(user, other) == 100.0
  {
    assert Elems<string>([]) == {};
  }

  function Sample(hobbies: seq<string>): UserProfile {
    UserProfile("", 30, "", [], "", hobbies, [], [], [], "", "", [], [], "", [], "", "")
  }

  /**
    The score is not symmetric: with one hobby of the user's two shared, the
    user scores the other 14/17 of 100, the other scores the user a full 100.
  */
  lemma ScoreIsAsymmetric()
    ensures MatchScore(Sample(["chess", "tennis"]), Sample(["chess"])) == 1400.0 / 17.0
    ensures MatchScore(Sample(["chess"]), Sample(["chess", "tennis"])) == 100.0
  {
    SampleCounts();
    var a := Sample(["chess", "tennis"]);
    var b := Sample(["chess"]);
    assert Numerator(a, b) == 14 && Denominator(a) == 17;
    assert Numerator(b, a) == 14 && Denominator(b) == 14;
  }

  lemma SampleCounts()
    ensures Common(["chess", "tennis"], ["chess"]) == 1 && Common(["chess"], ["chess", "tennis"]) == 1
    ensures Common([], []) == 0
  {
    assert Elems(["chess", "tennis"]) == {"chess", "tennis"};
    assert Elems(["chess"]) == {"chess"};
    assert Elems(["chess", "tennis"]) * Elems(["chess"]) == {"chess"};
    assert Elems(["chess"]) * Elems(["chess", "tennis"]) == {"chess"};
    assert Elems<string>([]) == {};
  }

  /** One entry of the match list: the candidate's id, its redacted profile and its score. */
  datatype MatchResult = MatchResult(userId: string, profile: Dict, matchScore: real)

  /** `profile.dict(exclude={'deal_breakers', 'values'})`. */
  function Redact(p: UserProfile): (d: Dict)
    ensures "deal_breakers" !in d && "values" !in d
    ensures forall k :: k in d <==> k in ProfileToDict(p) && k != "deal_breakers" && k != "values"
    ensures forall k :: k in d ==> d[k] == ProfileToDict(p)[k]
  {
    ProfileToDict(p) - {"deal_breakers", "values"}
  }

  /** A stored profile is listed for the user: not the user, mutually in each other's genders of interest, scoring at least `minScore`. */
  predicate Qualifies(user: UserProfile, userId: string, id: string, candidate: UserProfile, minScore: real) {
    && id != userId
    && candidate.gender in user.interestedIn
    && user.gender in candidate.interestedIn
    && MatchScore(user, candidate) >= minScore
  }

  function Entry(user: UserProfile, id: string, candidate: UserProfile): MatchResult {
    MatchResult(id, Redact(candidate), MatchScore(user, candidate))
  }

  /** The entries the scan over `keys` (in dict order) appends, before sorting. */
  function Candidates(profiles: map<string, UserProfile>, keys: seq<string>, userId: string, minScore: real): seq<MatchResult>
    requires userId in profiles && forall k :: k in keys ==> k in profiles
  {
    if keys == [] then []
    else
      var rest := Candidates(profiles, keys[..|keys| - 1], userId, minScore);
      var id := keys[|keys| - 1];
      if Qualifies(profiles[userId], userId, id, profiles[id], minScore)
      then rest + [Entry(profiles[userId], id, profiles[id])]
      else rest
  }

  function Ids(ms: seq<MatchResult>): (r: seq<string>)
    ensures |r| == |ms| && forall i :: 0 <= i < |ms| ==> r[i] == ms[i].userId
  {
    if ms == [] then [] else Ids(ms[..|ms| - 1]) + [ms[|ms| - 1].userId]
  }

  /** Every listed entry is a qualifying candidate, with its own id, its redacted profile and its score. */
  lemma {:induction false} CandidatesSound(profiles: map<string, UserProfile>, keys: seq<string>, userId: string, minScore: real)
    requires userId in profiles && forall k :: k in keys ==> k in profiles
    ensures forall i :: 0 <= i < |Candidates(profiles, keys, userId, minScore)| ==>
      var e := Candidates(profiles, keys, userId, minScore)[i];
      && e.userId in keys
      && Qualifies(profiles[userId], userId, e.userId, profiles[e.userId], minScore)
      && e == Entry(profiles[userId], e.userId, profiles[e.userId])
  {
    if keys != [] {
      CandidatesSound(profiles, keys[..|keys| - 1], userId, minScore);
    }
  }

  /** Every qualifying key is listed, and only keys are listed. */
  lemma {:induction false} CandidatesComplete(profiles: map<string, UserProfile>, keys: seq<string>, userId: string, minScore: real)
    requires userId in profiles && forall k :: k in keys ==> k in profiles
    ensures forall id :: id in keys && Qualifies(profiles[userId], userId, id, profiles[id], minScore) ==>
      id in Ids(Candidates(profiles, keys, userId, minScore))
    ensures forall id :: id in Ids(Candidates(profiles, keys, userId, minScore)) ==> id in keys
  {
    if keys != [] {
      var init := keys[..|keys| - 1];
      var id := keys[|keys| - 1];
      CandidatesComplete(profiles, init, userId, minScore);
      var rest := Candidates(profiles, init, userId, minScore);
      assert keys == init + [id];
      if Qualifies(profiles[userId], userId, id, profiles[id], minScore) {
        assert Ids(rest + [Entry(profiles[userId], id, profiles[id])]) == Ids(rest) + [id];
      }
    }
  }

  /** A key is listed once when the keys hold no duplicates. */
  lemma {:induction false} CandidatesDistinct(profiles: map<string, UserProfile>, keys: seq<string>, userId: string, minScore: real)
    requires userId in profiles && forall k :: k in keys ==> k in profiles
    requires NoDuplicates(keys)
    ensures NoDuplicates(Ids(Candidates(profiles, keys, userId, minScore)))
  {
    if keys != [] {
      var init := keys[..|keys| - 1];
      var id := keys[|keys| - 1];
      assert NoDuplicates(init) && id !in init by {
        assert keys == init + [id];
      }
      CandidatesDistinct(profiles, init, userId, minScore);
      CandidatesComplete(profiles, init, userId, minScore);
      var rest := Candidates(profiles, init, userId, minScore);
      if Qualifies(profiles[userId], userId, id, profiles[id], minScore) {
        IdsAppendDistinct(rest, Entry(profiles[userId], id, profiles[id]));
      }
    }
  }

  lemma IdsAppendDistinct(ms: seq<MatchResult>, e: MatchResult)
    requires NoDuplicates(Ids(ms)) && e.userId !in Ids(ms)
    ensures NoDuplicates(Ids(ms + [e]))
  {
    assert Ids(ms + [e]) == Ids(ms) + [e.userId];
  }

  /** Non-increasing in score. */
  predicate SortedByScore(ms: seq<MatchResult>) {
    forall i, j :: 0 <= i < j < |ms| ==> ms[i].matchScore >= ms[j].matchScore
  }

  /** Places `m` after every entry that scores at least as high. */
  function InsertByScore(m: MatchResult, ms: seq<MatchResult>): (r: seq<MatchResult>)
    ensures |r| == |ms| + 1
  {
    if ms == [] then [m]
    else if ms[0].matchScore >= m.matchScore then [ms[0]] + InsertByScore(m, ms[1..])
    else [m] + ms
  }

  /** `ms.sort(key=score, reverse=True)`: Python's stable sort, highest score first. */
  function SortByScore(ms: seq<MatchResult>): (r: seq<MatchResult>)
    ensures |r| == |ms|
  {
    if ms == [] then [] else InsertByScore(ms[|ms| - 1], SortByScore(ms[..|ms| - 1]))
  }

  /** The entries with score exactly `v`, in order. */
  function WithScore(ms: seq<MatchResult>, v: real): seq<MatchResult> {
    if ms == [] then []
    else (if ms[0].matchScore == v then [ms[0]] else []) + WithScore(ms[1..], v)
  }

  lemma {:induction false} InsertIsPermutation(m: MatchResult, ms: seq<MatchResult>)
    ensures multiset(InsertByScore(m, ms)) == multiset(ms) + multiset{m}
  {
    if ms != [] && ms[0].matchScore >= m.matchScore {
      InsertIsPermutation(m, ms[1..]);
      assert ms == [ms[0]] + ms[1..];
    }
  }

  /** No entry scores above `b`. */
  predicate AtMost(ms: seq<MatchResult>, b: real) {
    forall i :: 0 <= i < |ms| ==> ms[i].matchScore <= b
  }

  lemma {:induction false} InsertAtMost(m: MatchResult, ms: seq<MatchResult>, b: real)
    requires AtMost(ms, b) && m.matchScore <= b
    ensures AtMost(InsertByScore(m, ms), b)
  {
    if ms != [] && ms[0].matchScore >= m.matchScore {
      InsertAtMost(m, ms[1..], b);
    }
  }

  lemma SortedCons(x: MatchResult, ms: seq<MatchResult>)
    requires SortedByScore(ms) && AtMost(ms, x.matchScore)
    ensures SortedByScore([x] + ms)
  {
    var out := [x] + ms;
    forall i, j | 0 <= i < j < |out|
      ensures out[i].matchScore >= out[j].matchScore
    {
      assert out[j] == ms[j - 1];
      if i > 0 {
        assert out[i] == ms[i - 1];
      }
    }
  }

  lemma {:induction false} InsertKeepsOrder(m: MatchResult, ms: seq<MatchResult>)
    requires SortedByScore(ms)
    ensures SortedByScore(InsertByScore(m, ms))
  {
    if ms != [] && ms[0].matchScore >= m.matchScore {
      var tail := ms[1..];
      assert SortedByScore(tail) && AtMost(tail, ms[0].matchScore) by {
        forall i | 0 <= i < |tail|
          ensures tail[i] == ms[i + 1]
        {
        }
      }
      InsertKeepsOrder(m, tail);
      InsertAtMost(m, tail, ms[0].matchScore);
      SortedCons(ms[0], InsertByScore(m, tail));
    } else if ms != [] {
      SortedCons(m, ms);
    }
  }

  /** The sort's result is ordered best first. */
  lemma {:induction false} SortIsOrdered(ms: seq<MatchResult>)
    ensures SortedByScore(SortByScore(ms))
  {
    if ms != [] {
      SortIsOrdered(ms[..|ms| - 1]);
      InsertKeepsOrder(ms[|ms| - 1], SortByScore(ms[..|ms| - 1]));
    }
  }

  /** The sort's result is a permutation of its input. */
  lemma {:induction false} SortIsPermutation(ms: seq<MatchResult>)
    ensures multiset(SortByScore(ms)) == multiset(ms)
  {
    if ms != [] {
      var init := ms[..|ms| - 1];
      SortIsPermutation(init);
      InsertIsPermutation(ms[|ms| - 1], SortByScore(init));
      assert ms == init + [ms[|ms| - 1]];
    }
  }

  lemma {:induction false} WithScoreAppend(a: seq<MatchResult>, b: seq<MatchResult>, v: real)
    ensures WithScore(a + b, v) == WithScore(a, v) + WithScore(b, v)
  {
    if a == [] {
      assert a + b == b;
    } else {
      var head := if a[0].matchScore == v then [a[0]] else [];
      assert (a + b)[0] == a[0];
      assert (a + b)[1..] == a[1..] + b;
      WithScoreAppend(a[1..], b, v);
      assert WithScore(a + b, v) == head + (WithScore(a[1..], v) + WithScore(b, v));
    }
  }

  lemma {:induction false} WithScoreNone(ms: seq<MatchResult>, v: real)
    requires forall i :: 0 <= i < |ms| ==> ms[i].matchScore < v
    ensures WithScore(ms, v) == []
  {
    if ms != [] {
      WithScoreNone(ms[1..], v);
    }
  }

  lemma {:induction false} InsertIsStable(m: MatchResult, ms: seq<MatchResult>, v: real)
    requires SortedByScore(ms)
    ensures WithScore(InsertByScore(m, ms), v) == WithScore(ms, v) + (if m.matchScore == v then [m] else [])
  {
    if ms != [] && ms[0].matchScore >= m.matchScore {
      assert SortedByScore(ms[1..]) by {
        forall i, j | 0 <= i < j < |ms[1..]|
          ensures ms[1..][i].matchScore >= ms[1..][j].matchScore
        {
          assert ms[1..][i] == ms[i + 1] && ms[1..][j] == ms[j + 1];
        }
      }
      InsertIsStable(m, ms[1..], v);
      InsertStableBehind(m, ms, v);
    } else {
      forall i | 0 <= i < |ms|
        ensures ms[i].matchScore < m.matchScore
      {
        if i > 0 {
          assert ms[0].matchScore >= ms[i].matchScore;
        }
      }
      InsertStableInFront(m, ms, v);
    }
  }

  lemma InsertStableBehind(m: MatchResult, ms: seq<MatchResult>, v: real)
    requires ms != [] && ms[0].matchScore >= m.matchScore
    requires WithScore(InsertByScore(m, ms[1..]), v) == WithScore(ms[1..], v) + (if m.matchScore == v then [m] else [])
    ensures WithScore(InsertByScore(m, ms), v) == WithScore(ms, v) + (if m.matchScore == v then [m] else [])
  {
    WithScoreAppend([ms[0]], InsertByScore(m, ms[1..]), v);
    WithScoreAppend([ms[0]], ms[1..], v);
    assert ms == [ms[0]] + ms[1..];
  }

  lemma InsertStableInFront(m: MatchResult, ms: seq<MatchResult>, v: real)
    requires forall i :: 0 <= i < |ms| ==> ms[i].matchScore < m.matchScore
    ensures WithScore(InsertByScore(m, ms), v) == WithScore(ms, v) + (if m.matchScore == v then [m] else [])
  {
    assert InsertByScore(m, ms) == [m] + ms;
    WithScoreAppend([m], ms, v);
    if m.matchScore == v {
      WithScoreNone(ms, v);
    }
  }

  /** The sort is stable: the entries of any one score keep their relative order. */
  lemma {:induction false} SortIsStable(ms: seq<MatchResult>, v: real)
    ensures WithScore(SortByScore(ms), v) == WithScore(ms, v)
  {
    if ms != [] {
      var init := ms[..|ms| - 1];
      var last := ms[|ms| - 1];
      SortIsStable(init, v);
      SortIsOrdered(init);
      InsertIsStable(last, SortByScore(init), v);
      assert ms == init + [last];
      WithScoreAppend(init, [last], v);
    }
  }

  /** `matches[:limit]` for a non-negative limit. */
  function Take(ms: seq<MatchResult>, limit: nat): (r: seq<MatchResult>)
    ensures |r| == if limit < |ms| then limit else |ms|
    ensures r <= ms
  {
    if limit < |ms| then ms[..limit] else ms
  }

  /** The list `get_matches` returns for an authorised caller with a stored profile. */
  function Ranked(profiles: map<string, UserProfile>, order: seq<string>, userId: string, minScore: real, limit: nat): seq<MatchResult>
    requires userId in profiles && forall k :: k in order ==> k in profiles
  {
    Take(SortByScore(Candidates(profiles, order, userId, minScore)), limit)
  }

  /** The returned list is ordered best first and holds `limit` entries, or all when fewer qualify. */
  lemma RankedOrderAndLength(profiles: map<string, UserProfile>, order: seq<string>, userId: string, minScore: real, limit: nat)
    requires userId in profiles && forall k :: k in order ==> k in profiles
    ensures var r := Ranked(profiles, order, userId, minScore, limit);
      var all := Candidates(profiles, order, userId, minScore);
      SortedByScore(r) && |r| == (if limit < |all| then limit else |all|)
  {
    SortIsOrdered(Candidates(profiles, order, userId, minScore));
  }

  /** Every returned entry is a qualifying candidate other than the caller, with its id, redacted profile and score. */
  lemma RankedSound(profiles: map<string, UserProfile>, order: seq<string>, userId: string, minScore: real, limit: nat)
    requires userId in profiles && forall k :: k in order ==> k in profiles
    ensures var r := Ranked(profiles, order, userId, minScore, limit);
      forall i :: 0 <= i < |r| ==>
        && r[i].userId in profiles && r[i].userId != userId
        && Qualifies(profiles[userId], userId, r[i].userId, profiles[r[i].userId], minScore)
        && r[i].profile == Redact(profiles[r[i].userId])
        && r[i].matchScore == MatchScore(profiles[userId], profiles[r[i].userId])
  {
    var all := Candidates(profiles, order, userId, minScore);
    var sorted := SortByScore(all);
    var r := Take(sorted, limit);
    CandidatesSound(profiles, order, userId, minScore);
    SortIsPermutation(all);
    forall i | 0 <= i < |r|
      ensures r[i] in all
    {
      assert r[i] == sorted[i];
      assert sorted[i] in multiset(sorted);
    }
  }

  /** With a limit at least the number of qualifying candidates, every one of them is returned, each once. */
  lemma RankedComplete(profiles: map<string, UserProfile>, order: seq<string>, userId: string, minScore: real, limit: nat)
    requires userId in profiles && OrderMatches(order, profiles)
    requires limit >= |Candidates(profiles, order, userId, minScore)|
    ensures var r := Ranked(profiles, order, userId, minScore, limit);
      && (forall id :: id in profiles && Qualifies(profiles[userId], userId, id, profiles[id], minScore) ==> id in Ids(r))
      && NoDuplicates(Ids(r))
  {
    var all := Candidates(profiles, order, userId, minScore);
    var sorted := SortByScore(all);
    var r := Take(sorted, limit);
    assert r == sorted;
    CandidatesComplete(profiles, order, userId, minScore);
    CandidatesDistinct(profiles, order, userId, minScore);
    SortIsPermutation(all);
    forall id | id in profiles && Qualifies(profiles[userId], userId, id, profiles[id], minScore)
      ensures id in Ids(r)
    {
      IdInPermutation(all, sorted, id);
    }
    IdsPermutation(all, sorted);
  }

  /** A permutation lists the same ids. */
  lemma IdInPermutation(a: seq<MatchResult>, b: seq<MatchResult>, id: string)
    requires multiset(a) == multiset(b) && id in Ids(a)
    ensures id in Ids(b)
  {
    var k :| 0 <= k < |a| && Ids(a)[k] == id;
    assert a[k] in multiset(b);
    var j :| 0 <= j < |b| && b[j] == a[k];
    assert Ids(b)[j] == id;
  }

  /** A permutation of entries with distinct ids has distinct ids. */
  lemma IdsPermutation(a: seq<MatchResult>, b: seq<MatchResult>)
    requires multiset(a) == multiset(b)
    requires NoDuplicates(Ids(a))
    ensures NoDuplicates(Ids(b))
  {
    assert NoDuplicates(a) by {
      forall p, q | 0 <= p < q < |a|
        ensures a[p] != a[q]
      {
        assert Ids(a)[p] != Ids(a)[q];
      }
    }
    CountAtMostOne(a);
    forall i, j | 0 <= i < j < |b|
      ensures Ids(b)[i] != Ids(b)[j]
    {
      DistinctPositions(a, b, i, j);
    }
  }

  lemma DistinctPositions(a: seq<MatchResult>, b: seq<MatchResult>, i: nat, j: nat)
    requires multiset(a) == multiset(b) && NoDuplicates(Ids(a))
    requires forall x :: multiset(a)[x] <= 1
    requires i < j < |b|
    ensures b[i].userId != b[j].userId
  {
    assert b[i] in multiset(a) && b[j] in multiset(a);
    var p :| 0 <= p < |a| && a[p] == b[i];
    var q :| 0 <= q < |a| && a[q] == b[j];
    if p == q {
      TwoPositionsCount(b, i, j);
      assert false;
    }
    if p < q {
      assert Ids(a)[p] != Ids(a)[q];
    } else {
      assert Ids(a)[q] != Ids(a)[p];
    }
  }

  /** One more key of the scan adds its entry when it qualifies. */
  lemma CandidatesStep(profiles: map<string, UserProfile>, keys: seq<string>, i: nat, userId: string, minScore: real)
    requires userId in profiles && (forall k :: k in keys ==> k in profiles) && i < |keys|
    ensures var id := keys[i];
      Candidates(profiles, keys[..i + 1], userId, minScore)
      == Candidates(profiles, keys[..i], userId, minScore)
         + (if Qualifies(profiles[userId], userId, id, profiles[id], minScore) then [Entry(profiles[userId], id, profiles[id])] else [])
  {
    assert keys[..i + 1][..i] == keys[..i];
  }

  /** The scan of `get_matches`: every stored profile, in dict order, that qualifies for the user, as an entry. */
  method ScanProfiles(store: ProfileStore, userId: string, minScore: real) returns (matches: seq<MatchResult>)
    requires store.Valid() && userId in store.profiles
    ensures matches == Candidates(store.profiles, store.order, userId, minScore)
  {
    var user := store.profiles[userId];
    matches := [];
    var i := 0;
    while i < |store.order|
      invariant 0 <= i <= |store.order|
      invariant matches == Candidates(store.profiles, store.order[..i], userId, minScore)
    {
      var id := store.order[i];
      var candidate := store.profiles[id];
      CandidatesStep(store.profiles, store.order, i, userId, minScore);
      if id != userId && candidate.gender in user.interestedIn && user.gender in candidate.interestedIn {
        var score := MatchScore(user, candidate);
        if score >= minScore {
          matches := matches + [MatchResult(id, Redact(candidate), score)];
        }
      }
      i := i + 1;
    }
    assert store.order[..i] == store.order;
  }

  /**
    `get_matches`: the caller must ask for their own matches and have a profile;
    the scan skips the caller, keeps mutual gender interest and scores of at
    least `minScore`, redacts two fields, sorts best first and keeps `limit`.
  */
  method GetMatches(store: ProfileStore, userId: string, authUserId: string, minScore: real := 50.0, limit: nat := 10)
    returns (r: Result<seq<MatchResult>, ApiError>)
    requires store.Valid()
    ensures userId != authUserId ==> r == Failure(ProfileException("You can only get matches for your own profile"))
    ensures userId == authUserId && userId !in store.profiles ==> r == Failure(NotFound(userId))
    ensures r.Success? <==> userId == authUserId && userId in store.profiles
    ensures r.Success? ==> r.value == Ranked(store.profiles, store.order, userId, minScore, limit)
    ensures r.Success? ==> SortedByScore(r.value)
    ensures r.Success? ==> forall i :: 0 <= i < |r.value| ==>
      && r.value[i].userId in store.profiles && r.value[i].userId != userId
      && Qualifies(store.profiles[userId], userId, r.value[i].userId, store.profiles[r.value[i].userId], minScore)
      && r.value[i].profile == Redact(store.profiles[r.value[i].userId])
  {
    if userId != authUserId {
      return Failure(ProfileException("You can only get matches for your own profile"));
    }
    if userId !in store.profiles {
      return Failure(NotFound(userId));
    }
    var matches := ScanProfiles(store, userId, minScore);
    var sorted := SortByScore(matches);
    RankedOrderAndLength(store.profiles, store.order, userId, minScore, limit);
    RankedSound(store.profiles, store.order, userId, minScore, limit);
    return Success(if limit < |sorted| then sorted[..limit] else sorted);
  }
}
