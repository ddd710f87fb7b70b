/**
 * The analytics dashboard's data layer: the one-time migration of the flat list of analyses
 * into sender profiles and priority history, the statistics the dashboard shows, and the
 * relative dates of its history table. The clock is the parameter `now`.
 */
module Analytics {
  import opened Wrappers
  import opened Sorting
  import opened Decimal
  import Tally

  /** The scraped fields of an email that the dashboard reads. */
  datatype EmailData = EmailData(sender: string, senderName: string)

  /** One entry of `allEmailAnalyses`; `priority` and `categories` may be missing. */
  datatype Analysis = Analysis(
    emailData: EmailData,
    priority: Option<string>,
    senderImportance: string,
    summary: string,
    categories: Option<seq<string>>)

  /** A value of the `senderProfiles` dictionary, stored under its `email`. */
  datatype SenderProfile = SenderProfile(
    email: string,
    name: string,
    importance: string,
    interactionCount: nat,
    lastInteraction: int,
    categories: seq<string>)

  /** One entry of the `priorityHistory` array. */
  datatype HistoryEntry = HistoryEntry(
    emailId: string,
    senderEmail: string,
    predictedPriority: Option<string>,
    categories: seq<string>,
    timestamp: int)

  /** One entry of the `actionPatterns` array, reduced to the field the dashboard reads. */
  datatype ActionEntry = ActionEntry(actionType: string)

  /** The average priority before formatting: '-' when nothing was counted, else weighted / count. */
  datatype Average = NoData | Ratio(weighted: nat, count: nat)

  /** What `buildAnalytics` returns. */
  datatype Dashboard = Dashboard(
    totalSenders: nat,
    totalEmails: nat,
    totalActions: nat,
    avgPriority: Average,
    priorityDistribution: map<string, nat>,
    actionDistribution: map<string, nat>,
    topSenders: seq<SenderProfile>,
    recentActivity: seq<HistoryEntry>)

  function SenderOf(a: Analysis): string { a.emailData.sender }
  /** The key the top-senders ranking sorts by. */
  function CountOf(p: SenderProfile): int { p.interactionCount }

  /** `categories || []`. */
  function CategoriesOf(a: Analysis): seq<string> { a.categories.GetOr([]) }

  // ---------------------------------------------------------------------------------------
  // Migration

  /** The profile the migration creates on a sender's first analysis, before counting it. */
  function NewProfile(a: Analysis, now: int): SenderProfile {
    SenderProfile(a.emailData.sender, a.emailData.senderName, a.senderImportance, 0, now, CategoriesOf(a))
  }

  /**
   * The history entry the migration appends for one analysis. Its `emailId` is the clock in
   * decimal, a '-', and `random`, the text of the random number drawn for this entry.
   */
  function MigratedEntry(a: Analysis, random: string, now: int): HistoryEntry {
    HistoryEntry(IntToString(now) + "-" + random, a.emailData.sender, a.priority, CategoriesOf(a), now)
  }

  /** The number of analyses from sender `e`. */
  function SenderCount(analyses: seq<Analysis>, e: string): (n: nat)
    ensures n <= |analyses|
  {
    if analyses == [] then 0
    else
      var last := analyses[|analyses| - 1];
      SenderCount(analyses[..|analyses| - 1], e) + if SenderOf(last) == e then 1 else 0
  }

  /** The position of the first analysis from `e`, or `|analyses|` when there is none. */
  function FirstIndex(analyses: seq<Analysis>, e: string): (r: nat)
    ensures r <= |analyses|
    ensures r < |analyses| ==> SenderOf(analyses[r]) == e
  {
    if analyses == [] then 0
    else if SenderOf(analyses[0]) == e then 0
    else FirstIndex(analyses[1..], e) + 1
  }

  /** No analysis before the first one from `e` is from `e`. */
  lemma {:induction false} FirstIndexIsFirst(analyses: seq<Analysis>, e: string, j: nat)
    requires j < FirstIndex(analyses, e)
    ensures SenderOf(analyses[j]) != e
  {
    if j > 0 {
      FirstIndexIsFirst(analyses[1..], e, j - 1);
    }
  }

  /** A sender with no analysis among `analyses` has count 0. */
  lemma {:induction false} SenderCountAbsent(analyses: seq<Analysis>, e: string)
    requires forall j :: 0 <= j < |analyses| ==> SenderOf(analyses[j]) != e
    ensures SenderCount(analyses, e) == 0
  {
    if analyses != [] {
      SenderCountAbsent(analyses[..|analyses| - 1], e);
    }
  }

  /** `senderProfiles[e]`: the position of the profile stored under `e`, if any. */
  function FindProfile(profiles: seq<SenderProfile>, e: string): (r: Option<nat>)
    ensures r.Some? ==> r.value < |profiles| && profiles[r.value].email == e
    ensures r.None? ==> forall k :: 0 <= k < |profiles| ==> profiles[k].email != e
  {
    if profiles == [] then None
    else if profiles[|profiles| - 1].email == e then Some(|profiles| - 1)
    else FindProfile(profiles[..|profiles| - 1], e)
  }

  ghost predicate DistinctEmails(profiles: seq<SenderProfile>) {
    forall i, j :: 0 <= i < j < |profiles| ==> profiles[i].email != profiles[j].email
  }

  /** The sum of the profiles' interaction counts. */
  function InteractionTotal(profiles: seq<SenderProfile>): nat {
    if profiles == [] then 0 else InteractionTotal(profiles[..|profiles| - 1]) + profiles[|profiles| - 1].interactionCount
  }

  /**
   * What the migration leaves behind, given the analyses, the history it found, the clock and
   * the fresh email ids it drew:
   *   - one profile per distinct sender, in order of the sender's first analysis;
   *   - each profile built from the sender's first analysis, its count the sender's number of analyses;
   *   - the counts add up to the number of analyses;
   *   - the old history followed by one entry per analysis, in analysis order.
   */
  ghost predicate Rebuilt(analyses: seq<Analysis>, history: seq<HistoryEntry>, now: int, ids: nat -> string,
                          profiles: seq<SenderProfile>, history': seq<HistoryEntry>)
  {
    && DistinctEmails(profiles)
    && (set p | p in profiles :: p.email) == (set a | a in analyses :: SenderOf(a))
    && |profiles| == |set a | a in analyses :: SenderOf(a)|
    && (forall k :: 0 <= k < |profiles| ==>
          var first := FirstIndex(analyses, profiles[k].email);
          first < |analyses| &&
          profiles[k] == NewProfile(analyses[first], now).(interactionCount := SenderCount(analyses, profiles[k].email)))
    && (forall k, l :: 0 <= k < l < |profiles| ==>
          FirstIndex(analyses, profiles[k].email) < FirstIndex(analyses, profiles[l].email))
    && InteractionTotal(profiles) == |analyses|
    && |history'| == |history| + |analyses|
    && history'[..|history|] == history
    && (forall j :: 0 <= j < |analyses| ==> history'[|history| + j] == MigratedEntry(analyses[j], ids(j), now))
  }

  lemma {:induction false} TotalAfterIncrement(profiles: seq<SenderProfile>, k: nat)
    requires k < |profiles|
    ensures InteractionTotal(profiles[k := profiles[k].(interactionCount := profiles[k].interactionCount + 1)])
            == InteractionTotal(profiles) + 1
  {
    var n := |profiles| - 1;
    var q := profiles[k := profiles[k].(interactionCount := profiles[k].interactionCount + 1)];
    assert q[..n] == if k < n then profiles[..n][k := profiles[k].(interactionCount := profiles[k].interactionCount + 1)]
                     else profiles[..n];
    if k < n {
      TotalAfterIncrement(profiles[..n], k);
    }
  }

  lemma {:induction false} DistinctEmailCount(profiles: seq<SenderProfile>)
    requires DistinctEmails(profiles)
    ensures |set p | p in profiles :: p.email| == |profiles|
  {
    if profiles != [] {
      var n := |profiles| - 1;
      var init := profiles[..n];
      assert DistinctEmails(init);
      DistinctEmailCount(init);
      var last := profiles[n];
      assert (set p | p in profiles :: p.email) == (set p | p in init :: p.email) + {last.email} by {
        assert profiles == init + [last];
      }
      assert last.email !in (set p | p in init :: p.email);
    }
  }

  /** The profiles once the sender of `a` has one: a new profile, count 0, is appended when absent. */
  function Grown(profiles: seq<SenderProfile>, a: Analysis, now: int): seq<SenderProfile> {
    if FindProfile(profiles, SenderOf(a)).None? then profiles + [NewProfile(a, now)] else profiles
  }

  /** The position of the profile of `a`'s sender in `Grown(profiles, a, now)`. */
  function Slot(profiles: seq<SenderProfile>, a: Analysis): nat {
    var found := FindProfile(profiles, SenderOf(a));
    if found.None? then |profiles| else found.value
  }

  /** One pass of the migration loop over the profiles: create the sender's profile if absent, then count the analysis. */
  function CountAnalysis(profiles: seq<SenderProfile>, a: Analysis, now: int): seq<SenderProfile> {
    var ps := Grown(profiles, a, now);
    var k := Slot(profiles, a);
    ps[k := ps[k].(interactionCount := ps[k].interactionCount + 1)]
  }

  function Emails(profiles: seq<SenderProfile>): set<string> {
    set p | p in profiles :: p.email
  }

  /** The senders of the first `i` analyses. */
  function SendersBefore(analyses: seq<Analysis>, i: nat): set<string>
    requires i <= |analyses|
  {
    set j | 0 <= j < i :: SenderOf(analyses[j])
  }

  /** Every profile belongs to a sender among the first `i` analyses, and every such sender has one. */
  ghost predicate SendersSoFar(analyses: seq<Analysis>, i: nat, profiles: seq<SenderProfile>)
    requires i <= |analyses|
  {
    && (forall k :: 0 <= k < |profiles| ==> FirstIndex(analyses, profiles[k].email) < i)
    && SendersBefore(analyses, i) <= Emails(profiles)
  }

  /** Every profile was built from its sender's first analysis and counts its analyses among the first `i`. */
  ghost predicate ContentsSoFar(analyses: seq<Analysis>, i: nat, now: int, profiles: seq<SenderProfile>)
    requires i <= |analyses|
  {
    forall k :: 0 <= k < |profiles| ==>
      FirstIndex(analyses, profiles[k].email) < |analyses| &&
      profiles[k] == NewProfile(analyses[FirstIndex(analyses, profiles[k].email)], now)
                       .(interactionCount := SenderCount(analyses[..i], profiles[k].email))
  }

  /** Profiles are in the order of their senders' first analyses. */
  ghost predicate FirstAppearanceOrder(analyses: seq<Analysis>, profiles: seq<SenderProfile>) {
    forall k, l :: 0 <= k < l < |profiles| ==>
      FirstIndex(analyses, profiles[k].email) < FirstIndex(analyses, profiles[l].email)
  }

  /** The profiles after the first `i` analyses have been counted. */
  ghost predicate ProfilesSoFar(analyses: seq<Analysis>, i: nat, now: int, profiles: seq<SenderProfile>)
    requires i <= |analyses|
  {
    && DistinctEmails(profiles)
    && SendersSoFar(analyses, i, profiles)
    && ContentsSoFar(analyses, i, now, profiles)
    && FirstAppearanceOrder(analyses, profiles)
    && InteractionTotal(profiles) == i
  }

  /** A sender without a profile after `i` analyses first appears at analysis `i`. */
  lemma FirstSeen(analyses: seq<Analysis>, i: nat, profiles: seq<SenderProfile>)
    requires i < |analyses| && SendersSoFar(analyses, i, profiles)
    requires SenderOf(analyses[i]) !in Emails(profiles)
    ensures forall j :: 0 <= j < i ==> SenderOf(analyses[j]) != SenderOf(analyses[i])
    ensures FirstIndex(analyses, SenderOf(analyses[i])) == i
    ensures forall k :: 0 <= k < |profiles| ==> profiles[k].email != SenderOf(analyses[i])
  {
    var e := SenderOf(analyses[i]);
    forall j | 0 <= j < i ensures SenderOf(analyses[j]) != e {
      assert SenderOf(analyses[j]) in SendersBefore(analyses, i);
    }
    if FirstIndex(analyses, e) > i {
      FirstIndexIsFirst(analyses, e, i);
    }
    forall k | 0 <= k < |profiles| ensures profiles[k].email != e {
      assert profiles[k] in profiles;
    }
  }

  /** A sender not seen yet gets a new profile at the end: emails stay distinct and in first-appearance order. */
  lemma NewSenderOrder(analyses: seq<Analysis>, i: nat, now: int, profiles: seq<SenderProfile>)
    requires i < |analyses| && ProfilesSoFar(analyses, i, now, profiles)
    requires SenderOf(analyses[i]) !in Emails(profiles)
    ensures var ps := profiles + [NewProfile(analyses[i], now)];
            && DistinctEmails(ps)
            && (forall k :: 0 <= k < |ps| ==> FirstIndex(analyses, ps[k].email) <= i)
            && FirstAppearanceOrder(analyses, ps)
  {
    FirstSeen(analyses, i, profiles);
  }

  /** The new profile is built from the sender's first analysis and counts nothing yet. */
  lemma NewSenderContents(analyses: seq<Analysis>, i: nat, now: int, profiles: seq<SenderProfile>)
    requires i < |analyses| && ProfilesSoFar(analyses, i, now, profiles)
    requires SenderOf(analyses[i]) !in Emails(profiles)
    ensures ContentsSoFar(analyses, i, now, profiles + [NewProfile(analyses[i], now)])
    ensures InteractionTotal(profiles + [NewProfile(analyses[i], now)]) == i
  {
    var ps := profiles + [NewProfile(analyses[i], now)];
    FirstSeen(analyses, i, profiles);
    SenderCountAbsent(analyses[..i], SenderOf(analyses[i]));
    assert ps[..|profiles|] == profiles;
  }

  /** The profiles once the sender of analysis `i` has one, before that analysis is counted. */
  ghost predicate GrownSoFar(analyses: seq<Analysis>, i: nat, now: int, ps: seq<SenderProfile>)
    requires i < |analyses|
  {
    && DistinctEmails(ps)
    && (forall m :: 0 <= m < |ps| ==> FirstIndex(analyses, ps[m].email) <= i)
    && SendersBefore(analyses, i + 1) <= Emails(ps)
    && ContentsSoFar(analyses, i, now, ps)
    && FirstAppearanceOrder(analyses, ps)
    && InteractionTotal(ps) == i
  }

  lemma GrowStep(analyses: seq<Analysis>, i: nat, now: int, profiles: seq<SenderProfile>)
    requires i < |analyses| && ProfilesSoFar(analyses, i, now, profiles)
    ensures var ps := Grown(profiles, analyses[i], now);
            var k := Slot(profiles, analyses[i]);
            k < |ps| && ps[k].email == SenderOf(analyses[i]) && GrownSoFar(analyses, i, now, ps)
  {
    if FindProfile(profiles, SenderOf(analyses[i])).None? {
      GrowNew(analyses, i, now, profiles);
    } else {
      var k := Slot(profiles, analyses[i]);
      assert profiles[k] in profiles;
      GrowExisting(analyses, i, now, profiles);
    }
  }

  /** A sender that already has a profile: nothing is added. */
  lemma GrowExisting(analyses: seq<Analysis>, i: nat, now: int, profiles: seq<SenderProfile>)
    requires i < |analyses| && ProfilesSoFar(analyses, i, now, profiles)
    requires SenderOf(analyses[i]) in Emails(profiles)
    ensures GrownSoFar(analyses, i, now, profiles)
  {
    assert SendersBefore(analyses, i + 1) == SendersBefore(analyses, i) + {SenderOf(analyses[i])};
  }

  lemma GrowNew(analyses: seq<Analysis>, i: nat, now: int, profiles: seq<SenderProfile>)
    requires i < |analyses| && ProfilesSoFar(analyses, i, now, profiles)
    requires FindProfile(profiles, SenderOf(analyses[i])).None?
    ensures GrownSoFar(analyses, i, now, profiles + [NewProfile(analyses[i], now)])
  {
    assert SenderOf(analyses[i]) !in Emails(profiles);
    NewSenderOrder(analyses, i, now, profiles);
    NewSenderContents(analyses, i, now, profiles);
    NewSenderCovered(analyses, i, profiles, NewProfile(analyses[i], now));
  }

  /** After appending the profile of analysis `i`'s sender, the senders of the first `i + 1` analyses all have one. */
  lemma NewSenderCovered(analyses: seq<Analysis>, i: nat, profiles: seq<SenderProfile>, p: SenderProfile)
    requires i < |analyses| && SendersBefore(analyses, i) <= Emails(profiles)
    requires p.email == SenderOf(analyses[i])
    ensures SendersBefore(analyses, i + 1) <= Emails(profiles + [p])
  {
    var ps := profiles + [p];
    assert ps[|profiles|] in ps;
    assert Emails(ps) == Emails(profiles) + {p.email} by {
      assert ps == profiles + [ps[|profiles|]];
    }
    assert SendersBefore(analyses, i + 1) == SendersBefore(analyses, i) + {SenderOf(analyses[i])};
  }

  /** Counting analysis `i` in its sender's profile completes the pass. */
  lemma CountStep(analyses: seq<Analysis>, i: nat, now: int, ps: seq<SenderProfile>, k: nat)
    requires i < |analyses| && GrownSoFar(analyses, i, now, ps)
    requires k < |ps| && ps[k].email == SenderOf(analyses[i])
    ensures ProfilesSoFar(analyses, i + 1, now, ps[k := ps[k].(interactionCount := ps[k].interactionCount + 1)])
  {
    var r := ps[k := ps[k].(interactionCount := ps[k].interactionCount + 1)];
    TotalAfterIncrement(ps, k);
    CountOrder(analyses, i, now, ps, k);
    CountContents(analyses, i, now, ps, k);
  }

  lemma CountOrder(analyses: seq<Analysis>, i: nat, now: int, ps: seq<SenderProfile>, k: nat)
    requires i < |analyses| && GrownSoFar(analyses, i, now, ps)
    requires k < |ps| && ps[k].email == SenderOf(analyses[i])
    ensures var r := ps[k := ps[k].(interactionCount := ps[k].interactionCount + 1)];
            DistinctEmails(r) && SendersSoFar(analyses, i + 1, r) && FirstAppearanceOrder(analyses, r)
  {
    var r := ps[k := ps[k].(interactionCount := ps[k].interactionCount + 1)];
    assert forall m :: 0 <= m < |r| ==> r[m].email == ps[m].email;
    assert Emails(r) == Emails(ps) by {
      forall x | x in Emails(ps) ensures x in Emails(r) {
        var m :| 0 <= m < |ps| && ps[m].email == x;
        assert r[m] in r;
      }
      forall x | x in Emails(r) ensures x in Emails(ps) {
        var m :| 0 <= m < |r| && r[m].email == x;
        assert ps[m] in ps;
      }
    }
  }

  lemma CountContents(analyses: seq<Analysis>, i: nat, now: int, ps: seq<SenderProfile>, k: nat)
    requires i < |analyses| && GrownSoFar(analyses, i, now, ps)
    requires k < |ps| && ps[k].email == SenderOf(analyses[i])
    ensures ContentsSoFar(analyses, i + 1, now, ps[k := ps[k].(interactionCount := ps[k].interactionCount + 1)])
  {
    var r := ps[k := ps[k].(interactionCount := ps[k].interactionCount + 1)];
    assert analyses[..i + 1][..i] == analyses[..i];
    forall m | 0 <= m < |r|
      ensures r[m] == NewProfile(analyses[FirstIndex(analyses, r[m].email)], now)
                        .(interactionCount := SenderCount(analyses[..i + 1], r[m].email))
    {
      if m != k {
        assert ps[m].email != ps[k].email;
      }
    }
  }

  lemma CountAnalysisStep(analyses: seq<Analysis>, i: nat, now: int, profiles: seq<SenderProfile>)
    requires i < |analyses| && ProfilesSoFar(analyses, i, now, profiles)
    ensures ProfilesSoFar(analyses, i + 1, now, CountAnalysis(profiles, analyses[i], now))
  {
    var ps := Grown(profiles, analyses[i], now);
    var k := Slot(profiles, analyses[i]);
    assert k < |ps| && ps[k].email == SenderOf(analyses[i]) && GrownSoFar(analyses, i, now, ps) by {
      GrowStep(analyses, i, now, profiles);
    }
    var r := ps[k := ps[k].(interactionCount := ps[k].interactionCount + 1)];
    assert CountAnalysis(profiles, analyses[i], now) == r;
    assert ProfilesSoFar(analyses, i + 1, now, r) by {
      CountStep(analyses, i, now, ps, k);
    }
  }

  /** The profile part of one pass: look the sender up, create the profile if absent, increment its count. */
  method CountInto(profiles: seq<SenderProfile>, a: Analysis, now: int) returns (r: seq<SenderProfile>)
    ensures r == CountAnalysis(profiles, a, now)
  {
    r := profiles;
    var found := FindProfile(r, SenderOf(a));
    if found.None? {
      r := r + [NewProfile(a, now)];
      found := Some(|r| - 1);
    }
    var k := found.value;
    r := r[k := r[k].(interactionCount := r[k].interactionCount + 1)];
  }

  /** The old history followed by one migrated entry for each of the first `i` analyses. */
  ghost predicate HistorySoFar(analyses: seq<Analysis>, history: seq<HistoryEntry>, now: int, ids: nat -> string,
                               i: nat, history': seq<HistoryEntry>)
    requires i <= |analyses|
  {
    && |history'| == |history| + i
    && history'[..|history|] == history
    && (forall j :: 0 <= j < i ==> history'[|history| + j] == MigratedEntry(analyses[j], ids(j), now))
  }

  lemma HistoryStep(analyses: seq<Analysis>, history: seq<HistoryEntry>, now: int, ids: nat -> string,
                    i: nat, history': seq<HistoryEntry>)
    requires i < |analyses| && HistorySoFar(analyses, history, now, ids, i, history')
    ensures HistorySoFar(analyses, history, now, ids, i + 1, history' + [MigratedEntry(analyses[i], ids(i), now)])
  {
    var h := history' + [MigratedEntry(analyses[i], ids(i), now)];
    assert h[..|history|] == history'[..|history|];
  }

  /**
   * The migration loop (the `forEach` over `allEmailAnalyses`): creates a sender's profile on its
   * first analysis, counts every analysis for its sender, and appends one history entry per analysis.
   */
  method RebuildFromAnalyses(analyses: seq<Analysis>, history: seq<HistoryEntry>, now: int, ids: nat -> string)
    returns (profiles: seq<SenderProfile>, history': seq<HistoryEntry>)
    ensures Rebuilt(analyses, history, now, ids, profiles, history')
  {
    profiles := [];
    history' := history;
    for i := 0 to |analyses|
      invariant ProfilesSoFar(analyses, i, now, profiles)
      invariant HistorySoFar(analyses, history, now, ids, i, history')
    {
      var a := analyses[i];
      CountAnalysisStep(analyses, i, now, profiles);
      HistoryStep(analyses, history, now, ids, i, history');
      profiles := CountInto(profiles, a, now);
      history' := history' + [MigratedEntry(a, ids(i), now)];
    }
    RebuiltFromSoFar(analyses, history, now, ids, profiles, history');
  }

  lemma RebuiltFromSoFar(analyses: seq<Analysis>, history: seq<HistoryEntry>, now: int, ids: nat -> string,
                         profiles: seq<SenderProfile>, history': seq<HistoryEntry>)
    requires ProfilesSoFar(analyses, |analyses|, now, profiles)
    requires HistorySoFar(analyses, history, now, ids, |analyses|, history')
    ensures Rebuilt(analyses, history, now, ids, profiles, history')
  {
    assert analyses[..|analyses|] == analyses;
    var senders := set a | a in analyses :: SenderOf(a);
    forall e | e in senders ensures e in Emails(profiles) {
      var j :| 0 <= j < |analyses| && SenderOf(analyses[j]) == e;
    }
    forall e | e in Emails(profiles) ensures e in senders {
      var k :| 0 <= k < |profiles| && profiles[k].email == e;
      assert analyses[FirstIndex(analyses, e)] in analyses;
    }
    DistinctEmailCount(profiles);
  }

  /**
   * The migration step of `loadAnalytics`: rebuilds profiles and history only when there are
   * analyses and no profiles yet; otherwise both are returned as loaded.
   */
  method MigrateIfNeeded(profiles: seq<SenderProfile>, history: seq<HistoryEntry>, analyses: seq<Analysis>,
                         now: int, ids: nat -> string)
    returns (profiles': seq<SenderProfile>, history': seq<HistoryEntry>)
    ensures |analyses| > 0 && |profiles| == 0 ==> Rebuilt(analyses, history, now, ids, profiles', history')
    ensures !(|analyses| > 0 && |profiles| == 0) ==> profiles' == profiles && history' == history
  {
    if |analyses| > 0 && |profiles| == 0 {
      profiles', history' := RebuildFromAnalyses(analyses, history, now, ids);
    } else {
      profiles', history' := profiles, history;
    }
  }

  // ---------------------------------------------------------------------------------------
  // Dashboard statistics

  /** `analysis.priority || 'Medium'`: a missing or empty priority counts as Medium. */
  function TierOf(a: Analysis): string {
    if a.priority.Some? && a.priority.value != "" then a.priority.value else "Medium"
  }

  function TiersOf(analyses: seq<Analysis>): seq<string> {
    seq(|analyses|, i requires 0 <= i < |analyses| => TierOf(analyses[i]))
  }

  function TypesOf(actions: seq<ActionEntry>): seq<string> {
    seq(|actions|, i requires 0 <= i < |actions| => actions[i].actionType)
  }

  /** `priorityValues[tier] || 0`: High 3, Medium 2, Low 1, anything else 0. */
  function Weight(tier: string): nat {
    if tier == "High" then 3 else if tier == "Medium" then 2 else if tier == "Low" then 1 else 0
  }

  const Tiers: set<string> := {"High", "Medium", "Low"}

  /** The weighted total lies between the count (all tiers known) and three times the count. */
  lemma {:induction false} WeightBounds(tiers: seq<string>)
    ensures Tally.SeqSumBy(tiers, Weight) <= 3 * |tiers|
    ensures (forall i :: 0 <= i < |tiers| ==> tiers[i] in Tiers) ==> Tally.SeqSumBy(tiers, Weight) >= |tiers|
  {
    if tiers != [] {
      WeightBounds(tiers[..|tiers| - 1]);
    }
  }

  /**
   * The bounds of the average priority: the weighted total of the analyses is at most three per
   * analysis, and at least one per analysis when every tier is High, Medium or Low, so the
   * average lies in [0, 3], and then in [1, 3].
   */
  lemma AverageBounds(analyses: seq<Analysis>)
    ensures Tally.SeqSumBy(TiersOf(analyses), Weight) <= 3 * |analyses|
    ensures (forall a :: a in analyses ==> TierOf(a) in Tiers) ==> |analyses| <= Tally.SeqSumBy(TiersOf(analyses), Weight)
  {
    WeightBounds(TiersOf(analyses));
    if forall a :: a in analyses ==> TierOf(a) in Tiers {
      forall i | 0 <= i < |TiersOf(analyses)| ensures TiersOf(analyses)[i] in Tiers {
        assert analyses[i] in analyses;
      }
    }
  }

  /**
   * `profiles.sort((a, b) => b.interactionCount - a.interactionCount).slice(0, 10)`: the ten
   * senders (or all, when fewer) with the most interactions, most first, drawn from the store
   * without repetition, and no sender left out has more interactions than one kept.
   */
  function TopSenders(profiles: seq<SenderProfile>): (r: seq<SenderProfile>)
    ensures |r| == if |profiles| < 10 then |profiles| else 10
    ensures multiset(r) <= multiset(profiles)
    ensures NonIncreasing(r, CountOf)
    ensures forall p, q :: p in profiles && p !in r && q in r ==> CountOf(p) <= CountOf(q)
  {
    TopBy(profiles, CountOf, 10)
  }

  /**
   * Senders with equal counts are listed in the order of `profiles`: of the senders with `c`
   * interactions, the top-senders list holds the first ones, in their order.
   */
  lemma TopSendersTies(profiles: seq<SenderProfile>, c: int)
    ensures WithKey(TopSenders(profiles), CountOf, c) <= WithKey(profiles, CountOf, c)
  {
    TopByStable(profiles, CountOf, 10, c);
  }

  /**
   * `buildAnalytics`: totals, the two distributions, the ten senders with the most interactions,
   * the average priority, and the first ten history entries as stored.
   */
  method BuildAnalytics(profiles: seq<SenderProfile>, history: seq<HistoryEntry>, actions: seq<ActionEntry>,
                        analyses: seq<Analysis>)
    returns (r: Dashboard)
    ensures r.totalSenders == |profiles|
    ensures r.totalEmails == |analyses|
    ensures r.totalActions == |actions|
    ensures r.priorityDistribution == Tally.TallyOf(Tiers, TiersOf(analyses))
    ensures "High" in r.priorityDistribution && "Medium" in r.priorityDistribution && "Low" in r.priorityDistribution
    ensures Tally.SumBy(r.priorityDistribution, Tally.One) == r.totalEmails
    ensures r.actionDistribution == Tally.TallyOf({}, TypesOf(actions))
    ensures r.avgPriority.NoData? <==> |analyses| == 0
    ensures r.avgPriority.Ratio? ==>
              r.avgPriority.count == |analyses| && r.avgPriority.weighted == Tally.SeqSumBy(TiersOf(analyses), Weight)
    ensures r.avgPriority.Ratio? ==> r.avgPriority.weighted <= 3 * r.avgPriority.count
    ensures r.topSenders == TopSenders(profiles)
    ensures r.recentActivity == history[..if |history| < 10 then |history| else 10]
  {
    var priorityDistribution := Tally.Count(Tiers, TiersOf(analyses));
    var actionDistribution := Tally.Count({}, TypesOf(actions));

    var topSenders := TopSenders(profiles);

    var totalActions := Tally.SumValues(actionDistribution, Tally.One);
    var totalPriority := Tally.SumValues(priorityDistribution, Weight);
    var totalCount := Tally.SumValues(priorityDistribution, Tally.One);
    Tally.TallyTotal(Tiers, TiersOf(analyses), Weight);
    AverageBounds(analyses);
    var avgPriority := if totalCount > 0 then Ratio(totalPriority, totalCount) else NoData;

    r := Dashboard(
      |profiles|, |analyses|, totalActions, avgPriority,
      priorityDistribution, actionDistribution, topSenders,
      SliceTo(history, 10));
  }

  // ---------------------------------------------------------------------------------------
  // Relative dates

  const MsPerMinute: int := 60_000
  const MsPerHour: int := 3_600_000
  const MsPerDay: int := 86_400_000

  /** Where floor division puts an elapsed time into days, hours and minutes. */
  lemma ElapsedUnits(diff: int)
    ensures diff / MsPerDay == 0 <==> 0 <= diff < MsPerDay
    ensures diff / MsPerDay == 1 <==> MsPerDay <= diff < 2 * MsPerDay
    ensures 2 <= diff / MsPerDay < 7 <==> 2 * MsPerDay <= diff < 7 * MsPerDay
    ensures diff < 0 <==> diff / MsPerDay < 0
    ensures 0 <= diff < MsPerDay ==> (diff / MsPerHour == 0 <==> diff < MsPerHour) && diff / MsPerHour < 24
    ensures 0 <= diff < MsPerHour ==> 0 <= diff / MsPerMinute < 60
  {
    var d := diff / MsPerDay;
    assert d * MsPerDay <= diff < d * MsPerDay + MsPerDay;
    var h := diff / MsPerHour;
    assert h * MsPerHour <= diff < h * MsPerHour + MsPerHour;
    var m := diff / MsPerMinute;
    assert m * MsPerMinute <= diff < m * MsPerMinute + MsPerMinute;
  }

  /**
   * `formatDate(timestamp)` at time `now`; `localeDate` stands for `toLocaleDateString`.
   * Elapsed time is cut into whole days, hours and minutes with floor division (Dafny's `/`
   * by a positive divisor), so a timestamp in the future falls in a negative day.
   */
  function FormatDate(timestamp: int, now: int, localeDate: int -> string): (r: string)
    ensures var diff := now - timestamp;
            0 <= diff < MsPerHour ==> r == IntToString(diff / MsPerMinute) + "m ago" && 0 <= diff / MsPerMinute < 60
    ensures var diff := now - timestamp;
            MsPerHour <= diff < MsPerDay ==> r == IntToString(diff / MsPerHour) + "h ago" && 1 <= diff / MsPerHour < 24
    ensures var diff := now - timestamp;
            MsPerDay <= diff < 2 * MsPerDay ==> r == "Yesterday"
    ensures var diff := now - timestamp;
            2 * MsPerDay <= diff < 7 * MsPerDay ==> r == IntToString(diff / MsPerDay) + "d ago" && 2 <= diff / MsPerDay < 7
    ensures var diff := now - timestamp;
            diff < 0 ==> r == IntToString(diff / MsPerDay) + "d ago" && r[0] == '-'
    ensures var diff := now - timestamp;
            diff >= 7 * MsPerDay ==> r == localeDate(timestamp)
  {
    var diff := now - timestamp;
    ElapsedUnits(diff);
    var days := diff / MsPerDay;
    if days == 0 then
      var hours := diff / MsPerHour;
      if hours == 0 then
        var minutes := diff / MsPerMinute;
        IntToString(minutes) + "m ago"
      else
        IntToString(hours) + "h ago"
    else if days == 1 then
      "Yesterday"
    else if days < 7 then
      IntToString(days) + "d ago"
    else
      localeDate(timestamp)
  }
}
