/**
 * The SortIQ IndexedDB manager (`SortIQDatabase`): four object stores kept in memory and
 * the operations that update and query them. The clock is the parameter `now`.
 */
module Database {
  import opened Wrappers
  import opened Sorting
  import opened ObjectStore
  import Tally

  /** A classification result as stored with an email's context. */
  datatype AnalysisRecord = AnalysisRecord(
    priority: string,
    priorityReason: string,
    senderImportance: string,
    importanceReason: string,
    summary: string,
    actionItems: seq<string>,
    categories: seq<string>)

  /** A record of the `senderProfiles` store, keyed by `email`. */
  datatype SenderProfile = SenderProfile(
    email: string,
    name: string,
    importance: string,
    interactionCount: nat,
    lastInteraction: int,
    lastInteractionType: string,
    avgResponseTime: int,
    categories: seq<string>)

  /** A value of the `priorityHistory` store (auto-increment key). */
  datatype PriorityHistory = PriorityHistory(
    emailId: string,
    senderEmail: string,
    predictedPriority: string,
    actualPriority: Option<string>,
    categories: seq<string>,
    timestamp: int)

  /** A value of the `actionPatterns` store (auto-increment key). */
  datatype ActionPattern = ActionPattern(
    actionType: string,
    category: string,
    senderEmail: string,
    timestamp: int,
    metadata: map<string, string>)

  /** A record of the `emailContext` store, keyed by `emailId`. */
  datatype EmailContext = EmailContext(
    emailId: string,
    senderEmail: string,
    subject: string,
    summary: string,
    analysis: AnalysisRecord,
    fullContent: string,
    timestamp: int)

  /** What `getAnalytics` returns. */
  datatype AnalyticsReport = AnalyticsReport(
    totalSenders: nat,
    totalInteractions: nat,
    topSenders: seq<SenderProfile>,
    priorityDistribution: map<string, nat>,
    actionDistribution: map<string, nat>,
    recentActivity: seq<Row<PriorityHistory>>)

  function EmailOf(p: SenderProfile): string { p.email }
  /** The key the top-senders ranking sorts by. */
  function CountOf(p: SenderProfile): int { p.interactionCount }
  function EmailIdOf(c: EmailContext): string { c.emailId }
  function ContextTime(c: EmailContext): int { c.timestamp }
  function HistoryTime(r: Row<PriorityHistory>): int { r.value.timestamp }
  function ActionTime(r: Row<ActionPattern>): int { r.value.timestamp }

  /** The `senderEmail` index lookup on the history store. */
  function HistoryFrom(senderEmail: string): Row<PriorityHistory> -> bool {
    (x: Row<PriorityHistory>) => x.value.senderEmail == senderEmail
  }

  /** The `senderEmail` index lookup on the email-context store. */
  function ContextFrom(senderEmail: string): EmailContext -> bool {
    (x: EmailContext) => x.senderEmail == senderEmail
  }

  /** The tiers every priority distribution starts with, at 0. */
  const Tiers: set<string> := {"High", "Medium", "Low"}

  /** The `predictedPriority` of each entry, in order. */
  function Predicted(rows: seq<Row<PriorityHistory>>): seq<string> {
    seq(|rows|, i requires 0 <= i < |rows| => rows[i].value.predictedPriority)
  }

  /** The `actionType` of each entry, in order. */
  function ActionTypes(rows: seq<Row<ActionPattern>>): seq<string> {
    seq(|rows|, i requires 0 <= i < |rows| => rows[i].value.actionType)
  }

  /** The interaction count stored for `email`, 0 when it has no profile. */
  function InteractionsWith(profiles: seq<SenderProfile>, email: string): nat {
    match Get(profiles, email, EmailOf)
    case Some(p) => p.interactionCount
    case None => 0
  }

  /** The sum of all profiles' interaction counts. */
  function InteractionTotal(profiles: seq<SenderProfile>): nat {
    if profiles == [] then 0 else profiles[0].interactionCount + InteractionTotal(profiles[1..])
  }

  /** The profile `updateSenderProfile` writes, given what it read for the sender first. */
  function NextProfile(existing: Option<SenderProfile>, email: string, name: string, importance: string,
                       interactionType: string, now: int): SenderProfile
  {
    SenderProfile(
      email, name, importance,
      (if existing.Some? then existing.value.interactionCount else 0) + 1,
      now, interactionType,
      if existing.Some? then existing.value.avgResponseTime else 0,
      if existing.Some? then existing.value.categories else [])
  }

  /** The sender-profile store after one `updateSenderProfile(email, ...)`. */
  function UpdateProfiles(profiles: seq<SenderProfile>, email: string, name: string, importance: string,
                          interactionType: string, now: int): (r: seq<SenderProfile>)
    requires KeyOrdered(profiles, EmailOf)
    ensures KeyOrdered(r, EmailOf)
  {
    Put(profiles, NextProfile(Get(profiles, email, EmailOf), email, name, importance, interactionType, now), EmailOf)
  }

  /**
   * The life of an IndexedDB transaction: it accepts requests while it is active; once control
   * returns to the event loop with none of its requests pending, it commits and accepts no more.
   */
  datatype TxState = Active | Committed

  /** A transaction's state after its method has awaited work that placed `pending` requests on it. */
  function AfterAwait(tx: TxState, pending: nat): TxState {
    if pending == 0 then Committed else tx
  }

  /**
   * `store.put(p)` on the sender-profile store through transaction `tx`: on a committed
   * transaction the call throws `TransactionInactiveError`, and nothing is written (`None`).
   */
  function PutOn(tx: TxState, profiles: seq<SenderProfile>, p: SenderProfile): Option<seq<SenderProfile>>
    requires KeyOrdered(profiles, EmailOf)
  {
    if tx.Active? then Some(Put(profiles, p, EmailOf)) else None
  }

  /**
   * `updateSenderProfile` in the order its code runs: the write transaction is opened first, then
   * the method awaits `getSenderProfile`, which reads in a read-only transaction of its own and
   * places no request on the write transaction; the `put` comes after that await. `None` is a
   * rejected call with the store unchanged.
   */
  function UpdateProfilesAsWritten(profiles: seq<SenderProfile>, email: string, name: string, importance: string,
                                   interactionType: string, now: int): Option<seq<SenderProfile>>
    requires KeyOrdered(profiles, EmailOf)
  {
    var tx := AfterAwait(Active, 0);
    PutOn(tx, profiles, NextProfile(Get(profiles, email, EmailOf), email, name, importance, interactionType, now))
  }

  /**
   * As written, every call rejects and writes nothing, for every store and arguments; the
   * intended update, `UpdateProfiles`, always leaves a profile for the sender in the store.
   */
  lemma UpdateAsWrittenNeverWrites(profiles: seq<SenderProfile>, email: string, name: string, importance: string,
                                   interactionType: string, now: int)
    requires KeyOrdered(profiles, EmailOf)
    ensures UpdateProfilesAsWritten(profiles, email, name, importance, interactionType, now).None?
    ensures Get(UpdateProfiles(profiles, email, name, importance, interactionType, now), email, EmailOf).Some?
  {
    UpdateProfilesEffect(profiles, email, name, importance, interactionType, now, email);
  }

  /** The arguments of one `updateSenderProfile` call for a fixed sender, and the clock at that call. */
  datatype Interaction = Interaction(name: string, importance: string, interactionType: string, now: int)

  /** The sender-profile store after the calls `calls`, in order, all for `email`. */
  function Replay(profiles: seq<SenderProfile>, email: string, calls: seq<Interaction>): (r: seq<SenderProfile>)
    requires KeyOrdered(profiles, EmailOf)
    ensures KeyOrdered(r, EmailOf)
    decreases |calls|
  {
    if calls == [] then profiles
    else
      var c := calls[0];
      Replay(UpdateProfiles(profiles, email, c.name, c.importance, c.interactionType, c.now), email, calls[1..])
  }

  /**
   * One update adds one to the sender's count (starting from 0 for a new sender), keeps the
   * sender's average response time and categories, and leaves every other sender's profile alone.
   */
  lemma UpdateProfilesEffect(profiles: seq<SenderProfile>, email: string, name: string, importance: string,
                             interactionType: string, now: int, e: string)
    requires KeyOrdered(profiles, EmailOf)
    ensures var r := UpdateProfiles(profiles, email, name, importance, interactionType, now);
            var before := Get(profiles, email, EmailOf);
            && InteractionsWith(r, email) == InteractionsWith(profiles, email) + 1
            && Get(r, email, EmailOf).Some?
            && Get(r, email, EmailOf).value.avgResponseTime == (if before.Some? then before.value.avgResponseTime else 0)
            && Get(r, email, EmailOf).value.categories == (if before.Some? then before.value.categories else [])
            && (e != email ==> Get(r, e, EmailOf) == Get(profiles, e, EmailOf))
  {
    var p := NextProfile(Get(profiles, email, EmailOf), email, name, importance, interactionType, now);
    GetAfterPut(profiles, p, EmailOf, email);
    GetAfterPut(profiles, p, EmailOf, e);
  }

  /** n calls for the same sender raise its count by exactly n and touch no other sender. */
  lemma {:induction false} RepeatedUpdates(profiles: seq<SenderProfile>, email: string, calls: seq<Interaction>)
    requires KeyOrdered(profiles, EmailOf)
    ensures InteractionsWith(Replay(profiles, email, calls), email) == InteractionsWith(profiles, email) + |calls|
    ensures forall e :: e != email ==> Get(Replay(profiles, email, calls), e, EmailOf) == Get(profiles, e, EmailOf)
    decreases |calls|
  {
    if calls != [] {
      var c := calls[0];
      var next := UpdateProfiles(profiles, email, c.name, c.importance, c.interactionType, c.now);
      UpdateProfilesEffect(profiles, email, c.name, c.importance, c.interactionType, c.now, email);
      RepeatedUpdates(next, email, calls[1..]);
      forall e | e != email ensures Get(Replay(profiles, email, calls), e, EmailOf) == Get(profiles, e, EmailOf) {
        UpdateProfilesEffect(profiles, email, c.name, c.importance, c.interactionType, c.now, e);
      }
    }
  }

  /** Writing a profile changes the total by the new count minus the count it replaces. */
  lemma {:induction false} TotalAfterPut(s: seq<SenderProfile>, x: SenderProfile)
    requires KeyOrdered(s, EmailOf)
    ensures InteractionTotal(Put(s, x, EmailOf)) + InteractionsWith(s, x.email) == InteractionTotal(s) + x.interactionCount
  {
    if s != [] {
      KeyOrderedTail(s, EmailOf);
      if x.email == s[0].email {
      } else if LexLess(x.email, s[0].email) {
        forall y | y in s ensures y.email != x.email {
          if y != s[0] { LexLessTransitive(x.email, s[0].email, y.email); }
          LexLessIrreflexive(y.email);
        }
      } else {
        LexLessTotal(x.email, s[0].email);
        TotalAfterPut(s[1..], x);
      }
    }
  }

  /** Every `updateSenderProfile` call adds exactly one interaction to the store's total. */
  lemma UpdateAddsOneInteraction(profiles: seq<SenderProfile>, email: string, name: string, importance: string,
                                 interactionType: string, now: int)
    requires KeyOrdered(profiles, EmailOf)
    ensures InteractionTotal(UpdateProfiles(profiles, email, name, importance, interactionType, now))
            == InteractionTotal(profiles) + 1
  {
    var p := NextProfile(Get(profiles, email, EmailOf), email, name, importance, interactionType, now);
    TotalAfterPut(profiles, p);
  }

  /** Each profile holds at least one interaction, so the total is at least the number of senders. */
  lemma {:induction false} TotalAtLeastSenders(profiles: seq<SenderProfile>)
    requires forall p :: p in profiles ==> p.interactionCount >= 1
    ensures InteractionTotal(profiles) >= |profiles|
  {
    if profiles != [] {
      assert profiles[0] in profiles;
      TotalAtLeastSenders(profiles[1..]);
    }
  }

  class SortIQDatabase {
    /** The `senderProfiles` store, in key (email) order. */
    var senderProfiles: seq<SenderProfile>
    /** The `priorityHistory` store, in key (id) order, and its key generator. */
    var priorityHistory: seq<Row<PriorityHistory>>
    var nextHistoryId: nat
    /** The `actionPatterns` store, in key (id) order, and its key generator. */
    var actionPatterns: seq<Row<ActionPattern>>
    var nextActionId: nat
    /** The `emailContext` store, in key (emailId) order. */
    var emailContext: seq<EmailContext>

    ghost predicate Valid()
      reads this
    {
      && KeyOrdered(senderProfiles, EmailOf)
      && (forall p :: p in senderProfiles ==> p.interactionCount >= 1)
      && AutoIds(priorityHistory, nextHistoryId)
      && AutoIds(actionPatterns, nextActionId)
      && KeyOrdered(emailContext, EmailIdOf)
    }

    /** A freshly created database: four empty stores, key generators at 1. */
    constructor ()
      ensures Valid()
      ensures senderProfiles == [] && priorityHistory == [] && actionPatterns == [] && emailContext == []
      ensures nextHistoryId == 1 && nextActionId == 1
    {
      senderProfiles := [];
      priorityHistory := [];
      nextHistoryId := 1;
      actionPatterns := [];
      nextActionId := 1;
      emailContext := [];
    }

    /** `getSenderProfile(email)`: the profile stored for `email`, or nothing. */
    function GetSenderProfile(email: string): (r: Option<SenderProfile>)
      reads this
      ensures r.Some? ==> r.value in senderProfiles && r.value.email == email
      ensures r.None? ==> forall p :: p in senderProfiles ==> p.email != email
    {
      Get(senderProfiles, email, EmailOf)
    }

    /** `getAllSenderProfiles()`: every stored profile once, in ascending email order. */
    function GetAllSenderProfiles(): (r: seq<SenderProfile>)
      reads this
      requires Valid()
      ensures forall i, j :: 0 <= i < j < |r| ==> LexLess(r[i].email, r[j].email)
      ensures forall p :: p in r <==> GetSenderProfile(p.email) == Some(p)
    {
      AllProfilesFound();
      senderProfiles
    }

    lemma AllProfilesFound()
      requires Valid()
      ensures forall p :: p in senderProfiles <==> GetSenderProfile(p.email) == Some(p)
    {
      forall p | p in senderProfiles ensures GetSenderProfile(p.email) == Some(p) {
        var g := GetSenderProfile(p.email);
        KeyOrderedUnique(senderProfiles, EmailOf, g.value, p);
      }
    }

    /**
     * `updateSenderProfile`: writes the sender's profile with the count one higher than before
     * (0 before for a new sender), the new name, importance and interaction, and the old average
     * response time and categories (0 and [] for a new sender). No other profile changes.
     */
    method UpdateSenderProfile(email: string, name: string, importance: string, interactionType: string, now: int)
      returns (profile: SenderProfile)
      requires Valid()
      modifies this
      ensures Valid()
      ensures profile.email == email && profile.name == name && profile.importance == importance
      ensures profile.interactionCount == old(InteractionsWith(senderProfiles, email)) + 1
      ensures profile.lastInteraction == now && profile.lastInteractionType == interactionType
      ensures profile.avgResponseTime == if old(GetSenderProfile(email)).Some? then old(GetSenderProfile(email)).value.avgResponseTime else 0
      ensures profile.categories == if old(GetSenderProfile(email)).Some? then old(GetSenderProfile(email)).value.categories else []
      ensures GetSenderProfile(email) == Some(profile)
      ensures forall e :: e != email ==> GetSenderProfile(e) == old(GetSenderProfile(e))
      ensures senderProfiles == UpdateProfiles(old(senderProfiles), email, name, importance, interactionType, now)
      ensures priorityHistory == old(priorityHistory) && nextHistoryId == old(nextHistoryId)
      ensures actionPatterns == old(actionPatterns) && nextActionId == old(nextActionId)
      ensures emailContext == old(emailContext)
    {
      var existing := GetSenderProfile(email);
      profile := NextProfile(existing, email, name, importance, interactionType, now);
      forall e ensures Get(Put(senderProfiles, profile, EmailOf), e, EmailOf)
                       == if e == email then Some(profile) else Get(senderProfiles, e, EmailOf) {
        GetAfterPut(senderProfiles, profile, EmailOf, e);
      }
      senderProfiles := Put(senderProfiles, profile, EmailOf);
    }

    /** `addPriorityHistory`: appends one entry under the next generated id; no existing entry changes. */
    method AddPriorityHistory(emailId: string, senderEmail: string, predictedPriority: string,
                              actualPriority: Option<string>, categories: seq<string>, now: int)
      returns (history: PriorityHistory)
      requires Valid()
      modifies this
      ensures Valid()
      ensures history == PriorityHistory(emailId, senderEmail, predictedPriority, actualPriority, categories, now)
      ensures priorityHistory == old(priorityHistory) + [Row(old(nextHistoryId), history)]
      ensures forall r :: r in old(priorityHistory) ==> r.id != old(nextHistoryId)
      ensures nextHistoryId == old(nextHistoryId) + 1
      ensures senderProfiles == old(senderProfiles) && emailContext == old(emailContext)
      ensures actionPatterns == old(actionPatterns) && nextActionId == old(nextActionId)
    {
      history := PriorityHistory(emailId, senderEmail, predictedPriority, actualPriority, categories, now);
      AddKeepsAutoIds(priorityHistory, nextHistoryId, history);
      priorityHistory := priorityHistory + [Row(nextHistoryId, history)];
      nextHistoryId := nextHistoryId + 1;
    }

    /**
     * `getPriorityHistoryBySender(senderEmail, limit = 10)`: the sender's most recent entries,
     * newest first, at most `limit` of them; all of them when fewer are returned, and none left
     * out is newer than one returned.
     */
    function GetPriorityHistoryBySender(senderEmail: string, limit: int := 10): (r: seq<Row<PriorityHistory>>)
      reads this
      ensures forall x :: x in r ==> x in priorityHistory && x.value.senderEmail == senderEmail
      ensures multiset(r) <= multiset(priorityHistory)
      ensures forall i, j :: 0 <= i < j < |r| ==> r[i].value.timestamp >= r[j].value.timestamp
      ensures limit >= 0 ==> |r| == if limit < |Filter(priorityHistory, HistoryFrom(senderEmail))| then limit
                                   else |Filter(priorityHistory, HistoryFrom(senderEmail))|
      ensures 0 <= |r| < limit ==> forall x :: x in priorityHistory && x.value.senderEmail == senderEmail ==> x in r
      ensures forall x, y :: x in priorityHistory && x.value.senderEmail == senderEmail && x !in r && y in r
                ==> x.value.timestamp <= y.value.timestamp
    {
      TopWhere(priorityHistory, HistoryFrom(senderEmail), HistoryTime, limit)
    }

    /** `getAllPriorityHistory(limit = 100)`: the most recent entries, newest first, at most `limit`. */
    function GetAllPriorityHistory(limit: int := 100): (r: seq<Row<PriorityHistory>>)
      reads this
      ensures forall x :: x in r ==> x in priorityHistory
      ensures multiset(r) <= multiset(priorityHistory)
      ensures forall i, j :: 0 <= i < j < |r| ==> r[i].value.timestamp >= r[j].value.timestamp
      ensures limit >= 0 ==> |r| == if limit < |priorityHistory| then limit else |priorityHistory|
      ensures 0 <= |r| < limit ==> forall x :: x in priorityHistory ==> x in r
      ensures forall x, y :: x in priorityHistory && x !in r && y in r ==> x.value.timestamp <= y.value.timestamp
    {
      var r := TopBy(priorityHistory, HistoryTime, limit);
      assert forall x, y :: x in priorityHistory && x !in r && y in r ==> x.value.timestamp <= y.value.timestamp by {
        forall x, y | x in priorityHistory && x !in r && y in r ensures x.value.timestamp <= y.value.timestamp {
          assert HistoryTime(x) <= HistoryTime(y);
        }
      }
      r
    }

    /** `recordAction`: appends one action under the next generated id; no existing action changes. */
    method RecordAction(actionType: string, category: string, senderEmail: string,
                        metadata: map<string, string>, now: int)
      returns (action: ActionPattern)
      requires Valid()
      modifies this
      ensures Valid()
      ensures action == ActionPattern(actionType, category, senderEmail, now, metadata)
      ensures actionPatterns == old(actionPatterns) + [Row(old(nextActionId), action)]
      ensures forall r :: r in old(actionPatterns) ==> r.id != old(nextActionId)
      ensures nextActionId == old(nextActionId) + 1
      ensures senderProfiles == old(senderProfiles) && emailContext == old(emailContext)
      ensures priorityHistory == old(priorityHistory) && nextHistoryId == old(nextHistoryId)
    {
      action := ActionPattern(actionType, category, senderEmail, now, metadata);
      AddKeepsAutoIds(actionPatterns, nextActionId, action);
      actionPatterns := actionPatterns + [Row(nextActionId, action)];
      nextActionId := nextActionId + 1;
    }

    /** `getActionPatterns(limit = 100)`: the most recent actions, newest first, at most `limit`. */
    function GetActionPatterns(limit: int := 100): (r: seq<Row<ActionPattern>>)
      reads this
      ensures forall x :: x in r ==> x in actionPatterns
      ensures multiset(r) <= multiset(actionPatterns)
      ensures forall i, j :: 0 <= i < j < |r| ==> r[i].value.timestamp >= r[j].value.timestamp
      ensures limit >= 0 ==> |r| == if limit < |actionPatterns| then limit else |actionPatterns|
      ensures 0 <= |r| < limit ==> forall x :: x in actionPatterns ==> x in r
      ensures forall x, y :: x in actionPatterns && x !in r && y in r ==> x.value.timestamp <= y.value.timestamp
    {
      var r := TopBy(actionPatterns, ActionTime, limit);
      assert forall x, y :: x in actionPatterns && x !in r && y in r ==> x.value.timestamp <= y.value.timestamp by {
        forall x, y | x in actionPatterns && x !in r && y in r ensures x.value.timestamp <= y.value.timestamp {
          assert ActionTime(x) <= ActionTime(y);
        }
      }
      r
    }

    /** `getActionPatternsByCategory`: exactly the actions of that category, in id order, unsorted and untruncated. */
    function GetActionPatternsByCategory(category: string): (r: seq<Row<ActionPattern>>)
      reads this
      requires Valid()
      ensures forall x :: x in r <==> x in actionPatterns && x.value.category == category
      ensures forall i, j :: 0 <= i < j < |r| ==> r[i].id < r[j].id
    {
      var p := (x: Row<ActionPattern>) => x.value.category == category;
      FilterAscending(actionPatterns, p, RowId);
      Filter(actionPatterns, p)
    }

    /**
     * `saveEmailContext`: the store now holds the new context under its `emailId`, replacing any
     * earlier one, and every other email's context is unchanged.
     */
    method SaveEmailContext(emailId: string, senderEmail: string, subject: string, summary: string,
                            analysis: AnalysisRecord, fullContent: string, now: int)
      returns (context: EmailContext)
      requires Valid()
      modifies this
      ensures Valid()
      ensures context == EmailContext(emailId, senderEmail, subject, summary, analysis, fullContent, now)
      ensures Get(emailContext, emailId, EmailIdOf) == Some(context)
      ensures forall id :: id != emailId ==> Get(emailContext, id, EmailIdOf) == old(Get(emailContext, id, EmailIdOf))
      ensures emailContext == Put(old(emailContext), context, EmailIdOf)
      ensures senderProfiles == old(senderProfiles)
      ensures priorityHistory == old(priorityHistory) && nextHistoryId == old(nextHistoryId)
      ensures actionPatterns == old(actionPatterns) && nextActionId == old(nextActionId)
    {
      context := EmailContext(emailId, senderEmail, subject, summary, analysis, fullContent, now);
      forall id ensures Get(Put(emailContext, context, EmailIdOf), id, EmailIdOf)
                        == if id == emailId then Some(context) else Get(emailContext, id, EmailIdOf) {
        GetAfterPut(emailContext, context, EmailIdOf, id);
      }
      emailContext := Put(emailContext, context, EmailIdOf);
    }

    /** `getEmailContextBySender(senderEmail, limit = 5)`: the sender's most recent contexts, newest first. */
    function GetEmailContextBySender(senderEmail: string, limit: int := 5): (r: seq<EmailContext>)
      reads this
      ensures forall x :: x in r ==> x in emailContext && x.senderEmail == senderEmail
      ensures multiset(r) <= multiset(emailContext)
      ensures forall i, j :: 0 <= i < j < |r| ==> r[i].timestamp >= r[j].timestamp
      ensures limit >= 0 ==> |r| == if limit < |Filter(emailContext, ContextFrom(senderEmail))| then limit
                                   else |Filter(emailContext, ContextFrom(senderEmail))|
      ensures 0 <= |r| < limit ==> forall x :: x in emailContext && x.senderEmail == senderEmail ==> x in r
      ensures forall x, y :: x in emailContext && x.senderEmail == senderEmail && x !in r && y in r
                ==> x.timestamp <= y.timestamp
    {
      TopWhere(emailContext, ContextFrom(senderEmail), ContextTime, limit)
    }

    /**
     * `calculatePriorityDistribution`: the count of entries per predicted priority; High, Medium
     * and Low are always keys, any other predicted value becomes a key of its own, and the counts
     * add up to the number of entries.
     */
    method CalculatePriorityDistribution(priorities: seq<Row<PriorityHistory>>) returns (d: map<string, nat>)
      ensures d == Tally.TallyOf(Tiers, Predicted(priorities))
      ensures "High" in d && "Medium" in d && "Low" in d
      ensures forall k :: k in d <==> k in Tiers || k in Predicted(priorities)
      ensures forall k :: k in d ==> d[k] == multiset(Predicted(priorities))[k]
      ensures Tally.SumBy(d, Tally.One) == |priorities|
    {
      d := Tally.Count(Tiers, Predicted(priorities));
    }

    /**
     * `calculateActionDistribution`: the count of actions per action type; the keys are exactly
     * the types that occur, and the counts add up to the number of actions.
     */
    method CalculateActionDistribution(actions: seq<Row<ActionPattern>>) returns (d: map<string, nat>)
      ensures d == Tally.TallyOf({}, ActionTypes(actions))
      ensures forall k :: k in d <==> k in ActionTypes(actions)
      ensures forall k :: k in d ==> d[k] == multiset(ActionTypes(actions))[k]
      ensures Tally.SumBy(d, Tally.One) == |actions|
    {
      d := Tally.Count({}, ActionTypes(actions));
    }

    /**
     * `getAnalytics`: sender and interaction totals, the ten senders with the most interactions,
     * and the distributions and recent activity of the 50 most recent history entries and actions.
     */
    method GetAnalytics() returns (a: AnalyticsReport)
      requires Valid()
      ensures a.totalSenders == |senderProfiles|
      ensures a.totalInteractions == InteractionTotal(senderProfiles) && a.totalInteractions >= a.totalSenders
      ensures a.topSenders == TopBy(senderProfiles, CountOf, 10)
      ensures |a.topSenders| == if |senderProfiles| < 10 then |senderProfiles| else 10
      ensures multiset(a.topSenders) <= multiset(senderProfiles)
      ensures forall i, j :: 0 <= i < j < |a.topSenders| ==> CountOf(a.topSenders[i]) >= CountOf(a.topSenders[j])
      ensures forall p, q :: p in senderProfiles && p !in a.topSenders && q in a.topSenders ==> CountOf(p) <= CountOf(q)
      ensures a.priorityDistribution == Tally.TallyOf(Tiers, Predicted(GetAllPriorityHistory(50)))
      ensures Tally.SumBy(a.priorityDistribution, Tally.One) == |GetAllPriorityHistory(50)| <= 50
      ensures a.actionDistribution == Tally.TallyOf({}, ActionTypes(GetActionPatterns(50)))
      ensures Tally.SumBy(a.actionDistribution, Tally.One) == |GetActionPatterns(50)| <= 50
      ensures a.recentActivity == SliceTo(GetAllPriorityHistory(50), 10)
    {
      var senders := GetAllSenderProfiles();
      var priorities := GetAllPriorityHistory(50);
      var actions := GetActionPatterns(50);
      TotalAtLeastSenders(senders);
      var top := TopBy(senders, CountOf, 10);
      var priorityDistribution := CalculatePriorityDistribution(priorities);
      var actionDistribution := CalculateActionDistribution(actions);
      a := AnalyticsReport(
        |senders|,
        InteractionTotal(senders),
        top,
        priorityDistribution,
        actionDistribution,
        SliceTo(priorities, 10));
    }
  }
}
