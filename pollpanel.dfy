/** The poll sidebar of one participant: the creation form, the view of the active poll and
    the emits its buttons send. */
module PollPanel {
  import opened Base
  import opened JsText
  import opened Polls
  import Server

  /** The form offers at most this many option fields. */
  const MaxOptions: nat := 5

  /** What the filter keeps of one entry. */
  function Kept(option: string): seq<string> {
    if Trim(option) != "" then [option] else []
  }

  /** `options.filter(opt => opt.trim() !== '')` */
  function NonBlank(options: seq<string>): (r: seq<string>)
    ensures |r| <= |options|
    ensures forall k :: 0 <= k < |r| ==> Trim(r[k]) != ""
    ensures forall x :: x in r <==> x in options && Trim(x) != ""
  {
    if options == [] then []
    else Kept(options[0]) + NonBlank(options[1..])
  }

  /** Filtering keeps the order: the kept entries of a concatenation are those of each part, in turn. */
  lemma {:induction false} NonBlankAppend(a: seq<string>, b: seq<string>)
    ensures NonBlank(a + b) == NonBlank(a) + NonBlank(b)
  {
    if a == [] {
      assert a + b == b;
    } else {
      assert (a + b)[0] == a[0] && (a + b)[1..] == a[1..] + b;
      NonBlankAppend(a[1..], b);
      calc {
        NonBlank(a + b);
        Kept(a[0]) + NonBlank(a[1..] + b);
        Kept(a[0]) + (NonBlank(a[1..]) + NonBlank(b));
        (Kept(a[0]) + NonBlank(a[1..])) + NonBlank(b);
      }
    }
  }

  /** A list with no blank entry passes the filter unchanged. */
  lemma {:induction false} NonBlankKeepsAll(options: seq<string>)
    requires forall k :: 0 <= k < |options| ==> Trim(options[k]) != ""
    ensures NonBlank(options) == options
  {
    if options != [] {
      NonBlankKeepsAll(options[1..]);
    }
  }

  /** The `totalVotes` shown above the poll: the sum of the counts, which for a poll kept by the
      server's vote handler is the number of voters, and 0 when there is no poll. */
  function TotalVotes(activePoll: Option<Poll>): (n: nat)
    ensures activePoll.None? ==> n == 0
    ensures activePoll.Some? && Consistent(activePoll.value) ==> n == |activePoll.value.voters|
  {
    if activePoll.None? then 0 else Tally(activePoll.value.options)
  }

  /** `poll && poll.voters[selfSocketId]`; `selfSocketId` is None while the socket has no id yet. */
  predicate HasVoted(poll: Option<Poll>, selfSocketId: Option<ConnId>)
    ensures poll.Some? && HasVoted(poll, selfSocketId) && Consistent(poll.value) ==> TotalVotes(poll) >= 1
  {
    poll.Some? && selfSocketId.Some? && selfSocketId.value in poll.value.voters
  }

  /** `activePoll.creatorId === selfSocketId` */
  predicate IsCreator(activePoll: Poll, selfSocketId: Option<ConnId>)
    ensures selfSocketId.None? ==> !IsCreator(activePoll, selfSocketId)
  {
    selfSocketId.Some? && activePoll.creatorId == selfSocketId.value
  }

  /** The panel's `hasVoted` agrees with the server: a vote it lets through is counted and
      recorded, and one it holds back would have changed nothing. */
  lemma HasVotedMatchesServer(poll: Poll, self: ConnId, i: nat)
    requires !HasVoted(Some(poll), Some(self)) ==> i < |poll.options|
    ensures HasVoted(Some(poll), Some(self)) ==> CastVote(poll, self, i) == poll
    ensures !HasVoted(Some(poll), Some(self)) ==>
      TotalVotes(Some(CastVote(poll, self, i))) == TotalVotes(Some(poll)) + 1
      && self in CastVote(poll, self, i).voters
  {
  }

  /** The close button is shown to exactly the connection whose `close-poll` the server honours:
      for the poll the server holds for `c`'s room, `c` sees the button if and only if the
      registry would close that poll on its request. */
  lemma CloseButtonMatchesServer(users: map<ConnId, Server.User>, polls: map<RoomId, Option<Poll>>,
                                 c: ConnId, poll: Poll)
    requires Server.ActiveRoomIn(users, c).Some?
    requires Server.ActiveRoomIn(users, c).value in polls
    requires polls[Server.ActiveRoomIn(users, c).value] == Some(poll)
    ensures IsCreator(poll, Some(c)) <==> Server.ClosesPoll(users, polls, c)
  {
  }

  class Panel {
    const selfSocketId: Option<ConnId>
    var showCreate: bool
    var question: string
    var options: seq<string>
    var activePoll: Option<Poll>
    var hasVoted: bool
    var outbox: seq<ClientEmit>

    /** The form always shows between two and five option fields. */
    ghost predicate Valid()
      reads this`options
    {
      2 <= |options| <= MaxOptions
    }

    constructor (selfSocketId: Option<ConnId>)
      ensures Valid()
      ensures this.selfSocketId == selfSocketId
      ensures !showCreate && question == "" && options == ["", ""]
      ensures activePoll == None && !hasVoted && outbox == []
    {
      this.selfSocketId := selfSocketId;
      showCreate, question, options := false, "", ["", ""];
      activePoll, hasVoted, outbox := None, false, [];
    }

    /** The "Create" and "Cancel" buttons. */
    method SetShowCreate(show: bool)
      modifies this`showCreate
      ensures showCreate == show
    {
      showCreate := show;
    }

    /** The question field. */
    method SetQuestion(text: string)
      modifies this`question
      ensures question == text
    {
      question := text;
    }

    /** `handleAddOption`: one more empty field while there are fewer than five. */
    method HandleAddOption()
      requires Valid()
      modifies this`options
      ensures Valid()
      ensures old(|options|) < MaxOptions ==> options == old(options) + [""]
      ensures old(|options|) >= MaxOptions ==> options == old(options)
    {
      if |options| < MaxOptions {
        options := options + [""];
      }
    }

    /** `handleOptionChange`: the field at `index` (always a rendered one) takes `value`. */
    method HandleOptionChange(index: nat, value: string)
      requires Valid()
      requires index < |options|
      modifies this`options
      ensures Valid()
      ensures |options| == old(|options|) && options[index] == value
      ensures forall k :: 0 <= k < |options| && k != index ==> options[k] == old(options)[k]
    {
      var newOptions := options;
      newOptions := newOptions[index := value];
      options := newOptions;
    }

    /** `handleCreatePoll`: with a question that is not blank and at least two options that are
        not blank, sends the question as typed and the non-blank options in order, then resets and
        closes the form; otherwise nothing changes. */
    method HandleCreatePoll()
      requires Valid()
      modifies this`question, this`options, this`showCreate, this`outbox
      ensures Valid()
      ensures Trim(old(question)) != "" && |NonBlank(old(options))| >= 2 ==>
        && outbox == old(outbox) + [CreatePoll(old(question), NonBlank(old(options)))]
        && question == "" && options == ["", ""] && !showCreate
      ensures Trim(old(question)) == "" || |NonBlank(old(options))| < 2 ==>
        && outbox == old(outbox) && question == old(question)
        && options == old(options) && showCreate == old(showCreate)
    {
      var nonEmptyOptions := NonBlank(options);
      if Trim(question) != "" && |nonEmptyOptions| >= 2 {
        outbox := outbox + [CreatePoll(question, nonEmptyOptions)];
        question := "";
        options := ["", ""];
        showCreate := false;
      }
    }

    /** The `poll-update` handler. */
    method HandlePollUpdate(poll: Option<Poll>)
      modifies this`activePoll, this`hasVoted
      ensures activePoll == poll
      ensures hasVoted <==> poll.Some? && selfSocketId.Some? && selfSocketId.value in poll.value.voters
    {
      activePoll := poll;
      if HasVoted(poll, selfSocketId) {
        hasVoted := true;
      } else {
        hasVoted := false;
      }
    }

    /** `handleVote`: nothing is sent once this participant has voted. */
    method HandleVote(optionIndex: nat)
      modifies this`outbox
      ensures hasVoted ==> outbox == old(outbox)
      ensures !hasVoted ==> outbox == old(outbox) + [SubmitVote(optionIndex)]
    {
      if hasVoted {
        return;
      }
      outbox := outbox + [SubmitVote(optionIndex)];
    }

    /** `handleClosePoll`; the button is shown to the creator only, the server checks again. */
    method HandleClosePoll()
      modifies this`outbox
      ensures outbox == old(outbox) + [ClosePoll]
    {
      outbox := outbox + [ClosePoll];
    }
  }
}
