/** The deterministic shell around the two generative-AI calls: the candidate
    pool, the resolution of the returned records against it, the fallback
    ranking, and the bio helper's degrade-to-identity policy. The remote call
    itself is an input: its outcome is passed in as a `Reply`. */
module GeminiService {
  import opened Wrappers
  import opened Seqs
  import opened Types

  /** One element of the JSON array the model is asked to return. */
  datatype MatchRecord = MatchRecord(userId: string, score: real, reason: string, commonGround: seq<string>)

  /** A ranked candidate handed to the dashboard. */
  datatype SkillMatch = SkillMatch(user: UserProfile, matchScore: real, matchReason: string, commonGround: seq<string>)

  /** What `response.text` turned out to be. */
  datatype ReplyText =
    | NoText                              // absent or empty: read as "[]"
    | Records(records: seq<MatchRecord>)  // a JSON array of records
    | Unparseable                         // `JSON.parse` or `.map` throws

  /** The outcome of the remote generation call. */
  datatype Reply = CallFailed | Replied(text: ReplyText)

  const FallbackScore: real := 50.0
  const FallbackReason: string := "Potential match based on skill categories."
  const FallbackCommonGround: seq<string> := ["Collaborative Learning"]

  /** The candidate pool: every user except those sharing the current user's
      id, in their original order. */
  function Pool(currentUser: UserProfile, allUsers: seq<UserProfile>): (pool: seq<UserProfile>)
    ensures IsSubsequence(pool, allUsers)
    ensures forall u :: u in pool <==> u in allUsers && u.id != currentUser.id
  {
    var keep := (u: UserProfile) => u.id != currentUser.id;
    FilterIsSubsequence(keep, allUsers);
    FilterMembership(keep, allUsers);
    Filter(keep, allUsers)
  }

  /** Every occurrence of a candidate stays in the pool: a user other than
      the current one occurs in the pool as often as in the list. */
  lemma PoolKeepsEveryOccurrence(currentUser: UserProfile, allUsers: seq<UserProfile>)
    ensures forall u :: multiset(Pool(currentUser, allUsers))[u]
                        == if u.id != currentUser.id then multiset(allUsers)[u] else 0
  {
    FilterMultiplicity((u: UserProfile) => u.id != currentUser.id, allUsers);
  }

  /** `pool.find(u => u.id === id)`: the first pool member with that id. */
  function FindById(pool: seq<UserProfile>, id: string): (r: Option<UserProfile>)
    ensures r.None? <==> forall u :: u in pool ==> u.id != id
    ensures r.Some? ==> exists k :: 0 <= k < |pool| && pool[k] == r.value && r.value.id == id
                          && forall j :: 0 <= j < k ==> pool[j].id != id
  {
    if |pool| == 0 then None
    else if pool[0].id == id then Some(pool[0])
    else
      var r := FindById(pool[1..], id);
      assert forall u :: u in pool ==> u == pool[0] || u in pool[1..];
      if r.Some? then
        var k :| 0 <= k < |pool[1..]| && pool[1..][k] == r.value && r.value.id == id
                  && forall j :: 0 <= j < k ==> pool[1..][j].id != id;
        assert pool[k + 1] == r.value;
        r
      else r
  }

  /** A record survives resolution when its id names a pool member. */
  predicate Resolvable(pool: seq<UserProfile>, record: MatchRecord)
  {
    FindById(pool, record.userId).Some?
  }

  /** The surviving records, in reply order, duplicates kept. */
  function Surviving(pool: seq<UserProfile>, records: seq<MatchRecord>): seq<MatchRecord>
  {
    if |records| == 0 then []
    else if Resolvable(pool, records[0]) then [records[0]] + Surviving(pool, records[1..])
    else Surviving(pool, records[1..])
  }

  /** Survival is the order-preserving filter of the reply by resolvability,
      so it inherits every property of `Filter`. */
  lemma {:induction false} SurvivingIsFilter(pool: seq<UserProfile>, records: seq<MatchRecord>)
    ensures Surviving(pool, records) == Filter((rec: MatchRecord) => Resolvable(pool, rec), records)
    decreases |records|
  {
    if |records| > 0 {
      SurvivingIsFilter(pool, records[1..]);
    }
  }

  /** `results.map(...).filter(Boolean)`: each record whose id resolves
      becomes a match on the resolved user with score, reason and common
      ground copied verbatim; the others are dropped without error. */
  function ResolveRecords(pool: seq<UserProfile>, records: seq<MatchRecord>): (r: seq<SkillMatch>)
    ensures |r| <= |records|
    ensures forall m :: m in r ==> m.user in pool
  {
    if |records| == 0 then []
    else
      var rest := ResolveRecords(pool, records[1..]);
      match FindById(pool, records[0].userId)
      case None => rest
      case Some(u) =>
        var rec := records[0];
        [SkillMatch(u, rec.score, rec.reason, rec.commonGround)] + rest
  }

  /** The match a surviving record becomes. */
  ghost predicate MatchOf(pool: seq<UserProfile>, rec: MatchRecord, m: SkillMatch)
  {
    && FindById(pool, rec.userId) == Some(m.user)
    && m.user.id == rec.userId
    && m.matchScore == rec.score
    && m.matchReason == rec.reason
    && m.commonGround == rec.commonGround
  }

  /** Match `i` is what record `i` becomes, for every `i`. */
  ghost predicate Corresponds(pool: seq<UserProfile>, kept: seq<MatchRecord>, matches: seq<SkillMatch>)
  {
    |matches| == |kept| && forall i :: 0 <= i < |kept| ==> MatchOf(pool, kept[i], matches[i])
  }

  /** A record and the match it becomes, put in front of corresponding lists. */
  lemma ConsCorresponds(pool: seq<UserProfile>, rec: MatchRecord, m: SkillMatch,
                        kept: seq<MatchRecord>, matches: seq<SkillMatch>)
    requires MatchOf(pool, rec, m) && Corresponds(pool, kept, matches)
    ensures Corresponds(pool, [rec] + kept, [m] + matches)
  {
    forall i | 1 <= i < |kept| + 1
      ensures MatchOf(pool, ([rec] + kept)[i], ([m] + matches)[i])
    {
      assert ([rec] + kept)[i] == kept[i - 1] && ([m] + matches)[i] == matches[i - 1];
    }
  }

  /** One record of resolution: a resolvable record becomes the match on the
      first pool member with its id; any other record is skipped. */
  lemma ResolveUnfold(pool: seq<UserProfile>, records: seq<MatchRecord>)
    requires |records| > 0
    ensures Resolvable(pool, records[0]) ==>
              && MatchOf(pool, records[0], ResolveRecords(pool, records)[0])
              && ResolveRecords(pool, records) == [ResolveRecords(pool, records)[0]] + ResolveRecords(pool, records[1..])
              && Surviving(pool, records) == [records[0]] + Surviving(pool, records[1..])
    ensures !Resolvable(pool, records[0]) ==>
              && ResolveRecords(pool, records) == ResolveRecords(pool, records[1..])
              && Surviving(pool, records) == Surviving(pool, records[1..])
  {
  }

  /** The resolved matches correspond one to one, in order, with the records
      whose id resolves: nothing is reordered, merged or invented. */
  lemma {:induction false} ResolveFollowsSurviving(pool: seq<UserProfile>, records: seq<MatchRecord>)
    ensures Corresponds(pool, Surviving(pool, records), ResolveRecords(pool, records))
    decreases |records|
  {
    if |records| > 0 {
      ResolveFollowsSurviving(pool, records[1..]);
      ResolveUnfold(pool, records);
      if Resolvable(pool, records[0]) {
        ConsCorresponds(pool, records[0], ResolveRecords(pool, records)[0],
                        Surviving(pool, records[1..]), ResolveRecords(pool, records[1..]));
      }
    }
  }

  /** The users a list of matches refers to, in order. */
  function Users(matches: seq<SkillMatch>): (users: seq<UserProfile>)
    ensures |users| == |matches|
    ensures forall i :: 0 <= i < |matches| ==> users[i] == matches[i].user
  {
    seq(|matches|, i requires 0 <= i < |matches| => matches[i].user)
  }

  /** The neutral ranking used when the remote call fails. */
  function Fallback(pool: seq<UserProfile>): (r: seq<SkillMatch>)
    ensures |r| == |pool|
    ensures forall m :: m in r ==> m.matchScore == FallbackScore && m.matchReason == FallbackReason
                                    && m.commonGround == FallbackCommonGround
  {
    seq(|pool|, i requires 0 <= i < |pool| => SkillMatch(pool[i], FallbackScore, FallbackReason, FallbackCommonGround))
  }

  /** The fallback names every pool member exactly once, in pool order. */
  lemma FallbackCoversPool(pool: seq<UserProfile>)
    ensures Users(Fallback(pool)) == pool
  {
  }

  /** `getSmartMatches`: never fails; resolves a parsed reply against the
      pool, reads a missing reply text as an empty array, and falls back to
      the neutral ranking on every failure. */
  function GetSmartMatches(currentUser: UserProfile, allUsers: seq<UserProfile>, reply: Reply): (r: seq<SkillMatch>)
    ensures forall m :: m in r ==> m.user.id != currentUser.id && m.user in allUsers
    ensures reply == Replied(NoText) ==> r == []
    ensures reply.Replied? && reply.text.Records? ==> |r| <= |reply.text.records|
    ensures (reply.CallFailed? || reply == Replied(Unparseable)) ==> r == Fallback(Pool(currentUser, allUsers))
  {
    var pool := Pool(currentUser, allUsers);
    match reply
    case CallFailed => Fallback(pool)
    case Replied(NoText) => ResolveRecords(pool, [])
    case Replied(Records(records)) => ResolveRecords(pool, records)
    case Replied(Unparseable) => Fallback(pool)
  }

  /** On a transport failure, and on a reply that cannot be parsed, the
      result is exactly the fallback ranking of the pool. */
  lemma FailureFallsBack(currentUser: UserProfile, allUsers: seq<UserProfile>)
    ensures GetSmartMatches(currentUser, allUsers, CallFailed) == Fallback(Pool(currentUser, allUsers))
    ensures GetSmartMatches(currentUser, allUsers, Replied(Unparseable)) == Fallback(Pool(currentUser, allUsers))
  {
  }

  /** On a parsed reply the result is exactly the resolution of the records
      against the pool. */
  lemma ParsedReplyIsResolved(currentUser: UserProfile, allUsers: seq<UserProfile>, records: seq<MatchRecord>)
    ensures GetSmartMatches(currentUser, allUsers, Replied(Records(records)))
            == ResolveRecords(Pool(currentUser, allUsers), records)
  {
  }

  /** A reply whose every record names a pool member loses nothing: one
      match per record, in record order, scores copied verbatim. */
  lemma {:induction false} FullyResolvedReplyKeepsEveryRecord(pool: seq<UserProfile>, records: seq<MatchRecord>)
    requires forall rec :: rec in records ==> exists u :: u in pool && u.id == rec.userId
    ensures |ResolveRecords(pool, records)| == |records|
    ensures forall i :: 0 <= i < |records| ==>
              ResolveRecords(pool, records)[i].user.id == records[i].userId
              && ResolveRecords(pool, records)[i].matchScore == records[i].score
  {
    forall rec | rec in records
      ensures Resolvable(pool, rec)
    {
      var u :| u in pool && u.id == rec.userId;
      assert FindById(pool, rec.userId).Some?;
    }
    FilterKeepsAll((rec: MatchRecord) => Resolvable(pool, rec), records);
    SurvivingIsFilter(pool, records);
    ResolveFollowsSurviving(pool, records);
    forall i | 0 <= i < |records|
      ensures ResolveRecords(pool, records)[i].user.id == records[i].userId
      ensures ResolveRecords(pool, records)[i].matchScore == records[i].score
    {
      assert MatchOf(pool, records[i], ResolveRecords(pool, records)[i]);
    }
  }

  /** A record whose id names no pool member is dropped: appending it to a
      reply changes nothing. */
  lemma DanglingRecordDropped(pool: seq<UserProfile>, records: seq<MatchRecord>, dangling: MatchRecord)
    requires forall u :: u in pool ==> u.id != dangling.userId
    ensures ResolveRecords(pool, [dangling] + records) == ResolveRecords(pool, records)
  {
  }

  /** Two candidates ranked at 90 and 20 by the model come back in that
      order, each referring to its own pool profile, scores unchanged; the
      current user, who is in the list too, is not among them. */
  lemma RankedReplyScenario(me: UserProfile, u2: UserProfile, u3: UserProfile)
    requires me.id != u2.id && me.id != u3.id && u2.id != u3.id
    ensures GetSmartMatches(me, [me, u2, u3], Replied(Records([MatchRecord(u2.id, 90.0, "fit", ["UI"]),
                                                                MatchRecord(u3.id, 20.0, "weak", [])])))
            == [SkillMatch(u2, 90.0, "fit", ["UI"]), SkillMatch(u3, 20.0, "weak", [])]
  {
    var records := [MatchRecord(u2.id, 90.0, "fit", ["UI"]), MatchRecord(u3.id, 20.0, "weak", [])];
    assert Pool(me, [me, u2, u3]) == [u2, u3] by {
      FilterKeepsAll((u: UserProfile) => u.id != me.id, [u2, u3]);
      assert [me, u2, u3][1..] == [u2, u3];
    }
    ResolveTwo(u2, u3, records);
    ParsedReplyIsResolved(me, [me, u2, u3], records);
  }

  /** Resolution of the two-record reply of `RankedReplyScenario`. */
  lemma ResolveTwo(u2: UserProfile, u3: UserProfile, records: seq<MatchRecord>)
    requires u2.id != u3.id
    requires records == [MatchRecord(u2.id, 90.0, "fit", ["UI"]), MatchRecord(u3.id, 20.0, "weak", [])]
    ensures ResolveRecords([u2, u3], records) == [SkillMatch(u2, 90.0, "fit", ["UI"]), SkillMatch(u3, 20.0, "weak", [])]
  {
  }

  /** A record naming an id that is not in the pool is dropped; the other
      record survives. */
  lemma DanglingIdScenario(me: UserProfile, u2: UserProfile, unknown: string)
    requires me.id != u2.id && unknown != u2.id
    ensures GetSmartMatches(me, [me, u2], Replied(Records([MatchRecord(unknown, 70.0, "?", []),
                                                           MatchRecord(u2.id, 90.0, "fit", [])])))
            == [SkillMatch(u2, 90.0, "fit", [])]
  {
    var records := [MatchRecord(unknown, 70.0, "?", []), MatchRecord(u2.id, 90.0, "fit", [])];
    assert Pool(me, [me, u2]) == [u2] by {
      assert [me, u2][1..] == [u2] && [u2][1..] == [];
    }
    assert ResolveRecords([u2], records) == [SkillMatch(u2, 90.0, "fit", [])] by {
      assert FindById([u2], unknown) == None;
      assert records[1..][1..] == [];
      assert ResolveRecords([u2], records[1..]) == [SkillMatch(u2, 90.0, "fit", [])];
    }
    ParsedReplyIsResolved(me, [me, u2], records);
  }

  /** A transport failure with three candidates yields three neutral
      results, one per candidate, in pool order. */
  lemma TransportFailureScenario(me: UserProfile, a: UserProfile, b: UserProfile, c: UserProfile)
    requires me.id != a.id && me.id != b.id && me.id != c.id
    ensures GetSmartMatches(me, [a, me, b, c], CallFailed)
            == [SkillMatch(a, 50.0, FallbackReason, FallbackCommonGround),
                SkillMatch(b, 50.0, FallbackReason, FallbackCommonGround),
                SkillMatch(c, 50.0, FallbackReason, FallbackCommonGround)]
  {
    PoolSkipsCurrentUser(me, a, b, c);
    FallbackOfThree(a, b, c);
    FailureFallsBack(me, [a, me, b, c]);
  }

  /** The pool of `TransportFailureScenario`: the current user, second in
      the list, is the only one left out. */
  lemma PoolSkipsCurrentUser(me: UserProfile, a: UserProfile, b: UserProfile, c: UserProfile)
    requires me.id != a.id && me.id != b.id && me.id != c.id
    ensures Pool(me, [a, me, b, c]) == [a, b, c]
  {
    OthersSurvive(me.id, a, me, b, c);
  }

  /** The filter behind `PoolSkipsCurrentUser`, on its own. */
  lemma OthersSurvive(id: string, a: UserProfile, me: UserProfile, b: UserProfile, c: UserProfile)
    requires me.id == id && a.id != id && b.id != id && c.id != id
    ensures Filter((u: UserProfile) => u.id != id, [a, me, b, c]) == [a, b, c]
  {
    var keep := (u: UserProfile) => u.id != id;
    FilterKeepsAll(keep, [b, c]);
    assert [me, b, c][1..] == [b, c];
    assert Filter(keep, [me, b, c]) == [b, c];
    assert [a, me, b, c][1..] == [me, b, c];
  }

  /** The fallback ranking of a three-member pool, spelled out. */
  lemma FallbackOfThree(a: UserProfile, b: UserProfile, c: UserProfile)
    ensures Fallback([a, b, c]) == [SkillMatch(a, 50.0, FallbackReason, FallbackCommonGround),
                                    SkillMatch(b, 50.0, FallbackReason, FallbackCommonGround),
                                    SkillMatch(c, 50.0, FallbackReason, FallbackCommonGround)]
  {
  }

  /** The outcome of the bio-rewriting call. */
  datatype BioReply = BioCallFailed | BioReplied(text: Option<string>)

  /** `generateBioImprovement`: the reply text when there is a non-empty one,
      otherwise the original bio. The skills only shape the prompt. */
  function GenerateBioImprovement(bio: string, skills: seq<string>, reply: BioReply): (r: string)
    ensures (reply.BioCallFailed? || reply == BioReplied(None) || reply == BioReplied(Some(""))) ==> r == bio
    ensures reply.BioReplied? && reply.text.Some? && reply.text.value != "" ==> r == reply.text.value
    ensures r != ""  ==> r == bio || (reply.BioReplied? && reply.text == Some(r))
  {
    match reply
    case BioCallFailed => bio
    case BioReplied(None) => bio
    case BioReplied(Some(text)) => if text != "" then text else bio
  }
}
