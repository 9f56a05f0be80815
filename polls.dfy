/** The poll record the server stores per room and broadcasts in `poll-update`. */
module Polls {
  import opened Base

  datatype PollOption = PollOption(text: string, count: nat)

  /** `voters` is the server's `{ [socketId]: true }` object, read as the set of its keys. */
  datatype Poll = Poll(creatorId: ConnId, question: string, options: seq<PollOption>, voters: set<ConnId>)

  /** The sum of the option counts: the client's `options.reduce((sum, opt) => sum + opt.count, 0)`. */
  function Tally(options: seq<PollOption>): (n: nat)
    ensures forall k :: 0 <= k < |options| ==> options[k].count <= n
    ensures n == 0 <==> forall k :: 0 <= k < |options| ==> options[k].count == 0
  {
    if options == [] then 0 else Tally(options[..|options| - 1]) + options[|options| - 1].count
  }

  /** The tally invariant the vote handler keeps: every recorded voter accounts for exactly one vote. */
  ghost predicate Consistent(p: Poll) {
    Tally(p.options) == |p.voters|
  }

  /** `options.map(optionText => ({ text: optionText, count: 0 }))` */
  function ZeroOptions(texts: seq<string>): (r: seq<PollOption>)
    ensures |r| == |texts|
    ensures forall i :: 0 <= i < |texts| ==> r[i] == PollOption(texts[i], 0)
    ensures Tally(r) == 0
  {
    if texts == [] then []
    else
      var r := ZeroOptions(texts[..|texts| - 1]) + [PollOption(texts[|texts| - 1], 0)];
      assert r[..|r| - 1] == ZeroOptions(texts[..|texts| - 1]);
      r
  }

  /** The poll `create-poll` installs: created by the sender, options in the submitted order, nobody has voted. */
  function NewPoll(creator: ConnId, question: string, texts: seq<string>): (p: Poll)
    ensures p.creatorId == creator && p.question == question && p.voters == {}
    ensures |p.options| == |texts|
    ensures forall i :: 0 <= i < |texts| ==> p.options[i] == PollOption(texts[i], 0)
    ensures Consistent(p)
  {
    Poll(creator, question, ZeroOptions(texts), {})
  }

  /** Adding one to the count at `i` adds one to the tally. */
  lemma {:induction false} TallyBump(options: seq<PollOption>, i: nat)
    requires i < |options|
    ensures Tally(options[i := options[i].(count := options[i].count + 1)]) == Tally(options) + 1
  {
    var bumped := options[i := options[i].(count := options[i].count + 1)];
    var n := |options| - 1;
    if i < n {
      assert bumped[..n] == options[..n][i := options[i].(count := options[i].count + 1)];
      TallyBump(options[..n], i);
    } else {
      assert bumped[..n] == options[..n];
    }
  }

  /** The `submit-vote` transition on a poll: a sender already in `voters` changes nothing,
      whatever index it names; otherwise option `i` gains one vote and the sender is recorded. */
  function CastVote(p: Poll, voter: ConnId, i: nat): (r: Poll)
    requires voter !in p.voters ==> i < |p.options|
    ensures voter in p.voters ==> r == p
    ensures voter !in p.voters ==>
      && r.creatorId == p.creatorId && r.question == p.question
      && r.voters == p.voters + {voter}
      && |r.options| == |p.options|
      && r.options[i] == p.options[i].(count := p.options[i].count + 1)
      && (forall j :: 0 <= j < |p.options| && j != i ==> r.options[j] == p.options[j])
    ensures Tally(r.options) == Tally(p.options) + (if voter in p.voters then 0 else 1)
    ensures Consistent(p) ==> Consistent(r)
  {
    if voter in p.voters then p
    else
      TallyBump(p.options, i);
      p.(options := p.options[i := p.options[i].(count := p.options[i].count + 1)],
         voters := p.voters + {voter})
  }

  /** A sender who votes twice is counted once, whatever index the second vote names. */
  lemma VoteTwiceCountsOnce(p: Poll, voter: ConnId, i: nat, j: nat)
    requires voter !in p.voters ==> i < |p.options|
    ensures CastVote(CastVote(p, voter, i), voter, j) == CastVote(p, voter, i)
    ensures Tally(CastVote(CastVote(p, voter, i), voter, j).options) == Tally(p.options) + (if voter in p.voters then 0 else 1)
  {
  }

  /** The voters named in a sequence of `(sender, optionIndex)` votes. */
  function VotersOf(votes: seq<(ConnId, nat)>): set<ConnId> {
    if votes == [] then {} else VotersOf(votes[..|votes| - 1]) + {votes[|votes| - 1].0}
  }

  predicate IndicesFit(votes: seq<(ConnId, nat)>, n: nat) {
    forall k :: 0 <= k < |votes| ==> votes[k].1 < n
  }

  /** A run of votes applied in order. */
  function CastVotes(p: Poll, votes: seq<(ConnId, nat)>): (r: Poll)
    requires IndicesFit(votes, |p.options|)
    ensures |r.options| == |p.options|
    decreases |votes|
  {
    if votes == [] then p
    else
      var last := votes[|votes| - 1];
      var q := CastVotes(p, votes[..|votes| - 1]);
      CastVote(q, last.0, last.1)
  }

  /** After any run of votes on a consistent poll the tally still equals the number of voters,
      and the voters are exactly the earlier ones plus every sender in the run. */
  lemma {:induction false} TallyAfterVotes(p: Poll, votes: seq<(ConnId, nat)>)
    requires Consistent(p)
    requires IndicesFit(votes, |p.options|)
    ensures Consistent(CastVotes(p, votes))
    ensures CastVotes(p, votes).voters == p.voters + VotersOf(votes)
    ensures Tally(CastVotes(p, votes).options) == |p.voters + VotersOf(votes)|
    decreases |votes|
  {
    if votes != [] {
      TallyAfterVotes(p, votes[..|votes| - 1]);
    }
  }
}
