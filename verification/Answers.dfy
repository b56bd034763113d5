/**
 * What a node answers, exactly: when it votes, campaigns, wins, appends, and changes configuration.
 * The invariants say what a node never does; these say what it does.  Everything is stated on the
 * node's whole log.
 */
module Answers {
  import opened RaftTypes
  import opened Configuration
  import opened RaftHistory
  import opened LeaderCompleteness
  import opened RaftActions
  import opened NodeSpec
  import opened NodeRefinement
  import opened LeaderProofs

  // ----- effects -----

  /** The messages among effects, in order. */
  function Messages(effects: seq<Effect>): seq<Message> {
    if effects == [] then []
    else
      var last := effects[|effects| - 1];
      Messages(effects[..|effects| - 1]) + if last.Send? then [last.message] else []
  }

  lemma {:induction false} MessagesConcat(a: seq<Effect>, b: seq<Effect>)
    ensures Messages(a + b) == Messages(a) + Messages(b)
  {
    if b == [] {
      assert a + b == a;
    } else {
      MessagesConcat(a, b[..|b| - 1]);
      assert (a + b)[..|a + b| - 1] == a + b[..|b| - 1];
    }
  }

  lemma MessageAlone(effect: Effect)
    ensures Messages([effect]) == if effect.Send? then [effect.message] else []
  {
    assert [effect][..0] == [];
  }

  lemma {:induction false} NoMessages(effects: seq<Effect>)
    requires forall i | 0 <= i < |effects| :: !effects[i].Send?
    ensures Messages(effects) == []
  {
    if effects != [] {
      NoMessages(effects[..|effects| - 1]);
    }
  }

  lemma {:induction false} MessageIsSent(effects: seq<Effect>, m: Message)
    ensures m in Messages(effects) <==> Send(m) in effects
  {
    if effects != [] {
      var front, last := effects[..|effects| - 1], effects[|effects| - 1];
      MessageIsSent(front, m);
      assert effects == front + [last];
    }
  }

  /** What a message needs to be looked at: it is for this node, from another member. */
  predicate Routed(u: Setup, n: Core, m: Message) {
    m.to == n.id && m.from != NO_NODE && m.from != n.id && m.from in u.members
  }

  /** A routed message of this term or an earlier one is dispatched; one of a later term first makes the node follow it. */
  lemma Dispatched(u: Setup, n: Core, m: Message)
    requires Routed(u, n, m) && Boundary(n) <= n.applied
    ensures m.term <= n.state.term ==> React(u, n, Receive(m)) == Dispatch(u, n, m)
    ensures m.term > n.state.term ==>
      var inner := Dispatch(u, BecomeFollower(n, m.term, NO_NODE), m);
      React(u, n, Receive(m)) == if inner.Done? then Done(inner.node, true, inner.effects) else inner
  {
    hide Dispatch;
  }

  lemma DispatchesTo(u: Setup, n: Core, m: Message)
    requires Boundary(n) <= n.applied
    ensures m.RequestVote? ==> Dispatch(u, n, m) == HandleRequestVote(n, m)
    ensures m.RequestVoteResponse? ==> Dispatch(u, n, m) == HandleRequestVoteResponse(u, n, m)
    ensures m.AppendEntries? ==> Dispatch(u, n, m) == HandleAppendEntries(u, n, m)
    ensures m.AppendEntriesResponse? ==> Dispatch(u, n, m) == HandleAppendEntriesResponse(u, n, m)
    ensures m.InstallSnapshot? ==> Dispatch(u, n, m) == HandleInstallSnapshot(u, n, m)
    ensures m.InstallSnapshotResponse? ==> Dispatch(u, n, m) == HandleInstallSnapshotResponse(u, n, m)
  {
    hide HandleRequestVote, HandleRequestVoteResponse, HandleAppendEntries, HandleAppendEntriesResponse, HandleInstallSnapshot,
      HandleInstallSnapshotResponse;
  }

  // ----- voting -----

  /** A log that ends in this term at this index is at least as new. */
  ghost predicate AtLeastAsNew(term: nat, index: nat, log: Log) {
    term > LastTerm(log) || (term == LastTerm(log) && index >= |log|)
  }

  lemma LastTermIs(u: Setup, h: History, n: Core)
    requires Good(u, h, n)
    ensures LastIndex(n) == |Full(h, n.state)| && LastTermOf(n) == LastTerm(Full(h, n.state))
  {
    StoredOK(u, h, n);
    hide Good, StoredSnapshotOK, TermAt, TermIn, Full;
    FullLength(u, h, n.state);
    TermAtFull(u, h, n.state, LastIndex(n));
  }

  /** In the node's own term. */
  lemma VotesInTerm(n: Core, m: Message)
    requires m.RequestVote?
    ensures
      var granted :=
        && m.term == n.state.term
        && n.membership.IsVoter(n.id) && n.membership.IsVoter(m.from)
        && (n.state.votedFor == NO_NODE || n.state.votedFor == m.from)
        && (m.lastLogTerm > LastTermOf(n) || (m.lastLogTerm == LastTermOf(n) && m.lastLogIndex >= LastIndex(n)));
      var out := HandleRequestVote(n, m);
      && out.Done?
      && Messages(out.effects) == [RequestVoteResponse(n.id, m.from, n.state.term, granted)]
      && out.node.state == n.state.(votedFor := if granted then m.from else n.state.votedFor)
      && (out.dirty <==> out.node.state != n.state)
      && (ResetElectionTimer in out.effects <==> granted)
  {
    hide TermAt, LastTermOf, LastIndex;
    var out := HandleRequestVote(n, m);
    var response := out.effects[|out.effects| - 1];
    MessageAlone(ResetElectionTimer);
    MessageAlone(response);
    MessagesConcat([ResetElectionTimer], [response]);
    assert [ResetElectionTimer] + [response] == [ResetElectionTimer, response];
  }

  /**
   * A VOTE IS GRANTED exactly when the request is not of an earlier term, both nodes are voters of
   * the voter's configuration, the vote of that term is free or this candidate's, and the
   * candidate's log is at least as new.
   */
  lemma VotesExactly(u: Setup, h: History, n: Core, m: Message)
    requires Good(u, h, n) && m.RequestVote? && Routed(u, n, m)
    ensures Boundary(n) <= n.applied
    ensures
      var log := Full(h, n.state);
      var term := Max(n.state.term, m.term);
      var vote := if m.term > n.state.term then NO_NODE else n.state.votedFor;
      var granted :=
        && m.term == term
        && Config(u, log).IsVoter(n.id) && Config(u, log).IsVoter(m.from)
        && (vote == NO_NODE || vote == m.from)
        && AtLeastAsNew(m.lastLogTerm, m.lastLogIndex, log);
      var out := React(u, n, Receive(m));
      && out.Done?
      && Messages(out.effects) == [RequestVoteResponse(n.id, m.from, term, granted)]
      && out.node.state == n.state.(term := term, votedFor := if granted then m.from else vote)
      && (out.dirty <==> out.node.state != n.state)
      && (ResetElectionTimer in out.effects <==> granted)
  {
    hide Good, CoreOK, NodeOK, Fold, Full, LastTerm, HandleRequestVote, Messages, React, Dispatch;
    LastTermIs(u, h, n);
    GoodParts(u, h, n);
    Dispatched(u, n, m);
    var n1 := if m.term > n.state.term then BecomeFollower(n, m.term, NO_NODE) else n;
    DispatchesTo(u, n1, m);
    assert LastTermOf(n1) == LastTermOf(n);
    VotesInTerm(n1, m);
  }

  // ----- one input after another -----

  /** A timer that fires although the node's role has no use for it. */
  predicate Obsolete(n: Core, input: Input) {
    (input.ElectionTimeout? && n.role.Leader?) || (input.HeartbeatTimeout? && !n.role.Leader?)
  }

  /**
   * A node that takes inputs one after another, as if each write took no time: where it ends, and
   * all it asked for.  None if an input meets an error.
   */
  function Serial(u: Setup, n: Core, inputs: seq<Input>): Option<(Core, seq<Effect>)> {
    if inputs == [] then Some((n, []))
    else
      var before := Serial(u, n, inputs[..|inputs| - 1]);
      if before.None? then None
      else
        var (n1, effects) := before.value;
        var input := inputs[|inputs| - 1];
        if Obsolete(n1, input) then Some((n1, effects))
        else if Boundary(n1) > n1.applied then None
        else
          match React(u, n1, input)
          case Failed(_, _) => None
          case Done(n2, _, more) => Some((n2, effects + more))
  }

  function Receipts(messages: seq<Message>): (r: seq<Input>)
    ensures |r| == |messages| && forall i | 0 <= i < |r| :: r[i] == Receive(messages[i])
  {
    seq(|messages|, i requires 0 <= i < |messages| => Receive(messages[i]))
  }

  // ----- winning -----

  lemma {:induction false} BroadcastKeeps(n: Core, members: seq<NodeID>)
    ensures BroadcastAppend(n, members).0 == n.(appendSequence := BroadcastAppend(n, members).0.appendSequence)
    ensures forall e | e in BroadcastAppend(n, members).1 :: e.Send?
  {
    if members != [] {
      BroadcastKeeps(n, members[..|members| - 1]);
    }
  }

  /** Committing moves the commit index, applies, and steps a removed leader down; nothing else. */
  lemma CommitKeeps(u: Setup, n: Core)
    requires Boundary(n) <= n.applied
    ensures var (n1, effects) := AdvanceCommit(u, n);
      var k := n1.state.commit;
      && n.state.commit <= k && n1.state == n.state.(commit := k) && Boundary(n1) <= n1.applied
      && (forall e | e in effects :: e.Apply?)
      && (k == n.state.commit ==> n1 == n && effects == [])
      && (n.membership.IsVoter(n.id) ==> n1 == n.(state := n.state.(commit := k), applied := n1.applied))
  {
    hide Committable;
    HighestCommittableBounds(u, n, LastIndex(n));
  }

  lemma WinnerLeads(u: Setup, n: Core)
    requires n.membership.IsVoter(n.id) && Boundary(n) <= n.applied && LastIndex(n) < MAX_UINT64
    ensures var out := BecomeLeader(u, n);
      && out.Done? && out.dirty
      && out.node.role.Leader? && out.node.leader == n.id && out.node.id == n.id && Boundary(out.node) <= out.node.applied
      && out.node.state == n.state.(
           commit := out.node.state.commit,
           log := n.state.log + [Entry(LastIndex(n) + 1, n.state.term, Noop, [], ZERO_MEMBERSHIP)])
  {
    hide Filled, AdvanceCommit, BroadcastAppend, MembershipAt;
    var n0 := Crowned(u, n);
    CommitKeeps(u, n0);
    BroadcastKeeps(AdvanceCommit(u, n0).0, u.members);
  }

  /** Those who granted a vote in this term. */
  function Granted(answers: seq<Message>, term: nat): set<NodeID> {
    set i | 0 <= i < |answers| && answers[i].RequestVoteResponse? && answers[i].granted && answers[i].term == term :: answers[i].from
  }

  lemma GrantedSnoc(answers: seq<Message>, m: Message, term: nat)
    ensures Granted(answers + [m], term) ==
            Granted(answers, term) + if m.RequestVoteResponse? && m.granted && m.term == term then {m.from} else {}
  {
    var all := answers + [m];
    assert all[|answers|] == m;
    assert forall i | 0 <= i < |answers| :: all[i] == answers[i];
  }

  ghost predicate AnswersTo(u: Setup, n: Core, answers: seq<Message>) {
    forall i | 0 <= i < |answers| :: answers[i].RequestVoteResponse? && Routed(u, n, answers[i]) && answers[i].term <= n.state.term
  }

  /** Where a candidate is once it heard these answers. */
  ghost predicate HeardOut(n: Core, n1: Core, votes: set<NodeID>) {
    if Quorum(n.membership, votes) then
      && n1.role.Leader? && n1.leader == n.id && n1.id == n.id && Boundary(n1) <= n1.applied
      && n1.state == n.state.(
           commit := n1.state.commit,
           log := n.state.log + [Entry(LastIndex(n) + 1, n.state.term, Noop, [], ZERO_MEMBERSHIP)])
    else n1 == n.(votes := votes)
  }

  lemma HearsOne(u: Setup, n: Core, n1: Core, votes: set<NodeID>, m: Message)
    requires n.role.Candidate? && n.membership.IsVoter(n.id) && Boundary(n) <= n.applied && LastIndex(n) < MAX_UINT64
    requires HeardOut(n, n1, votes)
    requires m.RequestVoteResponse? && Routed(u, n, m) && m.term <= n.state.term
    ensures Boundary(n1) <= n1.applied
    ensures var out := React(u, n1, Receive(m));
      out.Done? && HeardOut(n, out.node, votes + if m.granted && m.term == n.state.term then {m.from} else {})
  {
    hide Quorum, BecomeLeader, React, Dispatch;
    Dispatched(u, n1, m);
    DispatchesTo(u, n1, m);
    var more := votes + if m.granted && m.term == n.state.term then {m.from} else {};
    if n1.role.Leader? {
      QuorumMonotone(n.membership, votes, more);
    } else if m.granted && m.term == n.state.term && m.from !in votes {
      WinnerLeads(u, n1.(votes := more));
    } else {
      assert more == votes;
    }
  }

  /**
   * A CANDIDATE WINS exactly when those who granted it their vote, with those it counted before,
   * are a quorum of its configuration, in whatever order and however often the answers come.
   */
  lemma {:induction false} WinsExactly(u: Setup, n: Core, answers: seq<Message>)
    requires n.role.Candidate? && n.membership.IsVoter(n.id) && Boundary(n) <= n.applied && LastIndex(n) < MAX_UINT64
    requires !Quorum(n.membership, n.votes)
    requires AnswersTo(u, n, answers)
    ensures Serial(u, n, Receipts(answers)).Some?
    ensures var n1 := Serial(u, n, Receipts(answers)).value.0;
      var votes := n.votes + Granted(answers, n.state.term);
      if Quorum(n.membership, votes) then
        && n1.role.Leader? && n1.leader == n.id && n1.id == n.id && Boundary(n1) <= n1.applied
        && n1.state == n.state.(
             commit := n1.state.commit,
             log := n.state.log + [Entry(LastIndex(n) + 1, n.state.term, Noop, [], ZERO_MEMBERSHIP)])
      else n1 == n.(votes := votes)
  {
    hide Quorum, React, LastIndex, Granted;
    if answers == [] {
      NobodyGranted(n.state.term);
      assert n.votes + {} == n.votes;
    } else {
      var front, last := answers[..|answers| - 1], answers[|answers| - 1];
      assert answers == front + [last];
      WinsExactly(u, n, front);
      GrantedSnoc(front, last, n.state.term);
      assert Receipts(answers)[..|answers| - 1] == Receipts(front);
      var n1 := Serial(u, n, Receipts(front)).value.0;
      var votes := n.votes + Granted(front, n.state.term);
      HearsOne(u, n, n1, votes, last);
      assert n.votes + Granted(answers, n.state.term) == votes + if last.granted && last.term == n.state.term then {last.from} else {};
    }
  }

  lemma NobodyGranted(term: nat)
    ensures Granted([], term) == {}
  {
  }

  /** The first message a node sends when this one reaches it. */
  function Reply(u: Setup, n: Core, m: Message): Option<Message> {
    if Boundary(n) > n.applied then None
    else
      match React(u, n, Receive(m))
      case Failed(_, _) => None
      case Done(_, _, effects) => if Messages(effects) == [] then None else Some(Messages(effects)[0])
  }

  /** What the voters reply to a candidate's request, in the order in which they are listed. */
  ghost function Polled(u: Setup, h: History, n: Core, voters: map<NodeID, Core>, order: seq<NodeID>): seq<Message>
    requires forall v | v in order :: v in voters
  {
    if order == [] then []
    else
      var v, log := order[|order| - 1], Full(h, n.state);
      var reply := Reply(u, voters[v], RequestVote(n.id, v, n.state.term, |log|, LastTerm(log)));
      Polled(u, h, n, voters, order[..|order| - 1]) + if reply.Some? then [reply.value] else []
  }

  /** A voter that has not voted for another candidate in this term or a later one, and whose log is no newer. */
  ghost predicate WouldVote(u: Setup, h: History, n: Core, voter: Core) {
    var mine, other := Full(h, n.state), Full(h, voter.state);
    && Good(u, h, voter)
    && Config(u, other).IsVoter(voter.id) && Config(u, other).IsVoter(n.id)
    && (voter.state.term < n.state.term
        || (voter.state.term == n.state.term && (voter.state.votedFor == NO_NODE || voter.state.votedFor == n.id)))
    && AtLeastAsNew(LastTerm(mine), |mine|, other)
  }

  lemma {:induction false} AllGrant(u: Setup, h: History, n: Core, voters: map<NodeID, Core>, order: seq<NodeID>)
    requires n.id in u.members && n.id != NO_NODE
    requires forall v | v in order :: v in voters && v in u.members && v != NO_NODE && v != n.id
    requires forall v | v in voters :: voters[v].id == v && WouldVote(u, h, n, voters[v])
    ensures AnswersTo(u, n, Polled(u, h, n, voters, order))
    ensures forall v | v in order :: v in Granted(Polled(u, h, n, voters, order), n.state.term)
  {
    hide Good, Fold, Full, React, LastTerm, Granted;
    if order == [] {
      NobodyGranted(n.state.term);
    } else {
      var front, v := order[..|order| - 1], order[|order| - 1];
      AllGrant(u, h, n, voters, front);
      assert WouldVote(u, h, n, voters[v]);
      var log := Full(h, n.state);
      var request := RequestVote(n.id, v, n.state.term, |log|, LastTerm(log));
      VotesExactly(u, h, voters[v], request);
      var reply := RequestVoteResponse(v, n.id, n.state.term, true);
      assert Reply(u, voters[v], request) == Some(reply);
      GrantedSnoc(Polled(u, h, n, voters, front), reply, n.state.term);
      assert order == front + [v];
    }
  }

  /**
   * AN ELECTION SUCCEEDS: a candidate leads its term once it heard from voters which, with itself, are
   * a quorum, if none of them voted otherwise and none has a newer log.
   */
  lemma QuorumElects(u: Setup, h: History, n: Core, voters: map<NodeID, Core>, order: seq<NodeID>)
    requires Good(u, h, n) && n.role.Candidate? && n.id != NO_NODE && LastIndex(n) < MAX_UINT64
    requires n.id in n.votes && !Quorum(n.membership, n.votes)
    requires forall v :: v in order <==> v in voters
    requires forall v | v in voters :: v in u.members && v != NO_NODE && v != n.id
    requires forall v | v in voters :: voters[v].id == v && WouldVote(u, h, n, voters[v])
    requires Quorum(n.membership, {n.id} + voters.Keys)
    ensures var end := Serial(u, n, Receipts(Polled(u, h, n, voters, order)));
      end.Some? && end.value.0.role.Leader? && end.value.0.state.term == n.state.term && end.value.0.id == n.id
  {
    GoodParts(u, h, n);
    assert n.membership.IsVoter(n.id) && n.id in u.members;
    hide Good, Fold, Full, React, Granted, CoreOK, NodeOK, Quorum, WouldVote;
    AllGrant(u, h, n, voters, order);
    var answers := Polled(u, h, n, voters, order);
    var votes := n.votes + Granted(answers, n.state.term);
    QuorumMonotone(n.membership, {n.id} + voters.Keys, votes);
    WinsExactly(u, n, answers);
  }

  // ----- campaigning -----

  /** The requests of a candidate are to the other voters of either set, each with the end of its log. */
  lemma RequestsExactly(n: Core, x: Message)
    ensures x in Messages(VoteRequests(n, VoterUnion(n.membership))) <==>
            && n.membership.IsVoter(x.to) && x.to != n.id
            && x == RequestVote(n.id, x.to, n.state.term, LastIndex(n), LastTermOf(n))
  {
    hide LastIndex, LastTermOf;
    var voters := VoterUnion(n.membership);
    var requests := VoteRequests(n, voters);
    var union := Extended(n.membership.voters, n.membership.votersOutgoing);
    SortedSorts(union);
    ExtendedMembers(n.membership.voters, n.membership.votersOutgoing, x.to);
    assert x.to in union <==> x.to in multiset(union);
    assert x.to in voters <==> x.to in multiset(voters);
    MessageIsSent(requests, x);
    RequestsGoTo(n, voters, 0);
    if Send(x) in requests {
      var i :| 0 <= i < |requests| && requests[i] == Send(x);
      RequestsGoTo(n, voters, i);
    }
    if x.to in voters && x.to != n.id && x == RequestVote(n.id, x.to, n.state.term, LastIndex(n), LastTermOf(n)) {
      var k :| 0 <= k < |voters| && voters[k] == x.to;
    }
  }

  /** A voter that needs the votes of others. */
  lemma StartsCampaign(u: Setup, n: Core)
    requires Boundary(n) <= n.applied && n.membership.IsVoter(n.id) && !Quorum(n.membership, {n.id})
    ensures var out := StartElection(u, n);
      && out.Done? && out.dirty && ResetElectionTimer in out.effects
      && out.node.role.Candidate? && out.node.votes == {n.id} && out.node.membership == n.membership
      && out.node.state == n.state.(term := n.state.term + 1, votedFor := n.id)
      && forall x: Message {:trigger x in Messages(out.effects)} :: x in Messages(out.effects) <==>
           && n.membership.IsVoter(x.to) && x.to != n.id
           && x == RequestVote(n.id, x.to, n.state.term + 1, LastIndex(n), LastTermOf(n))
  {
    hide Quorum, Messages, VoterUnion;
    var n1 := Candidacy(n);
    var requests := VoteRequests(n1, VoterUnion(n1.membership));
    MessageAlone(ResetElectionTimer);
    MessagesConcat([ResetElectionTimer], requests);
    assert [] + Messages(requests) == Messages(requests);
    forall x: Message
      ensures x in Messages(requests) <==>
           && n.membership.IsVoter(x.to) && x.to != n.id
           && x == RequestVote(n.id, x.to, n.state.term + 1, LastIndex(n), LastTermOf(n))
    {
      RequestsExactly(n1, x);
    }
  }

  /** A voter that is a quorum by itself. */
  lemma StartsReign(u: Setup, n: Core)
    requires Boundary(n) <= n.applied && n.membership.IsVoter(n.id) && Quorum(n.membership, {n.id}) && LastIndex(n) < MAX_UINT64
    ensures var out := StartElection(u, n);
      && out.Done? && out.dirty && ResetElectionTimer in out.effects && out.node.role.Leader?
      && out.node.state == n.state.(
           term := n.state.term + 1, votedFor := n.id, commit := out.node.state.commit,
           log := n.state.log + [Entry(LastIndex(n) + 1, n.state.term + 1, Noop, [], ZERO_MEMBERSHIP)])
  {
    hide Quorum, BecomeLeader;
    WinnerLeads(u, Candidacy(n));
  }

  /**
   * AN ELECTION TIMEOUT makes every voter a candidate of the next term that voted for itself and asks
   * exactly the other voters of its configuration, or leader if it needs no other vote.
   */
  lemma CampaignsExactly(u: Setup, h: History, n: Core)
    requires HistoryOK(u, h) && Good(u, h, n)
    ensures Boundary(n) <= n.applied
    ensures
      var log := Full(h, n.state);
      var m := Config(u, log);
      var out := React(u, n, ElectionTimeout);
      if !m.IsVoter(n.id) then out == Done(n, false, [])
      else if n.state.term == MAX_UINT64 then out == Failed(n, TermExhausted)
      else if Quorum(m, {n.id}) then
        if |log| == MAX_UINT64 then out == Failed(n, IndexExhausted)
        else
          && out.Done? && out.dirty && ResetElectionTimer in out.effects && out.node.role.Leader?
          && out.node.state == n.state.(
               term := n.state.term + 1, votedFor := n.id, commit := out.node.state.commit,
               log := n.state.log + [Entry(|log| + 1, n.state.term + 1, Noop, [], ZERO_MEMBERSHIP)])
      else
        && out.Done? && out.dirty && ResetElectionTimer in out.effects
        && out.node.role.Candidate? && out.node.votes == {n.id}
        && out.node.state == n.state.(term := n.state.term + 1, votedFor := n.id)
        && forall x: Message {:trigger x in Messages(out.effects)} :: x in Messages(out.effects) <==>
             && m.IsVoter(x.to) && x.to != n.id
             && x == RequestVote(n.id, x.to, n.state.term + 1, |log|, LastTerm(log))
  {
    hide Good, HistoryOK, CoreOK, NodeOK, Fold, Full, LastTerm, Quorum, StartElection, Messages;
    LastTermIs(u, h, n);
    LogFits(u, h, n);
    GoodParts(u, h, n);
    if n.membership.IsVoter(n.id) && n.state.term != MAX_UINT64 {
      if !Quorum(n.membership, {n.id}) {
        StartsCampaign(u, n);
      } else if LastIndex(n) < MAX_UINT64 {
        StartsReign(u, n);
      } else {
        NoRoom(u, n);
      }
    }
  }

  lemma NoRoom(u: Setup, n: Core)
    requires Boundary(n) <= n.applied && n.membership.IsVoter(n.id) && Quorum(n.membership, {n.id}) && LastIndex(n) == MAX_UINT64
    ensures StartElection(u, n) == Failed(n, IndexExhausted)
  {
  }
}
